/**
 * The two small text helpers: stndrdth, the ordinal suffix of a number,
 * and buildSymbolsList, the comma-separated list of option symbols.
 */
module Helpers {
  import opened Records

  /**
   * Go's math.Mod on whole numbers: the remainder carries the sign of the
   * dividend, unlike Dafny's `%`, whose remainder is never negative.
   */
  function GoMod(n: int, d: int): (r: int)
    requires d > 0
    ensures -d < r < d
    ensures n >= 0 ==> 0 <= r && n % d == r
    ensures n < 0 ==> r <= 0 && (-n) % d == -r
  {
    if n >= 0 then n % d else -((-n) % d)
  }

  /** stndrdth: "st", "nd" or "rd" when n mod 10 is 1, 2 or 3, and "th" otherwise. */
  function OrdinalSuffix(n: int): (suffix: string)
    ensures suffix == "st" || suffix == "nd" || suffix == "rd" || suffix == "th"
    ensures suffix != "th" ==> n >= 0 && 1 <= n % 10 <= 3
  {
    match GoMod(n, 10)
    case 1 => "st"
    case 2 => "nd"
    case 3 => "rd"
    case _ => "th"
  }

  /**
   * Only the last decimal digit of a non-negative number decides its suffix
   * (so 11 gets "st", 12 "nd" and 13 "rd"), and every negative number gets
   * "th", because its remainder is never positive.
   */
  lemma OrdinalSuffixByLastDigit(n: int)
    ensures n >= 0 ==>
      && (OrdinalSuffix(n) == "st" <==> n % 10 == 1)
      && (OrdinalSuffix(n) == "nd" <==> n % 10 == 2)
      && (OrdinalSuffix(n) == "rd" <==> n % 10 == 3)
      && (OrdinalSuffix(n) == "th" <==> n % 10 !in {1, 2, 3})
    ensures n < 0 ==> OrdinalSuffix(n) == "th"
  {
    assert "st" != "nd" && "st" != "rd" && "st" != "th";
    assert "nd" != "rd" && "nd" != "th" && "rd" != "th";
  }

  /** The suffix repeats every ten non-negative numbers. */
  lemma OrdinalSuffixPeriodic(n: nat)
    ensures OrdinalSuffix(n + 10) == OrdinalSuffix(n)
  {
    assert (n + 10) % 10 == n % 10;
  }

  /** strings.Join: the parts with `sep` between each two neighbours. */
  function Join(parts: seq<string>, sep: string): (joined: string)
    ensures |parts| == 0 ==> joined == ""
    ensures |parts| > 0 ==> parts[0] <= joined
  {
    if |parts| == 0 then ""
    else if |parts| == 1 then parts[0]
    else parts[0] + sep + Join(parts[1..], sep)
  }

  /**
   * strings.Split with a one-character separator: the pieces between the
   * separators; the empty string gives one empty piece.
   */
  function Split(s: string, sep: char): (parts: seq<string>)
    ensures |parts| >= 1
  {
    if |s| == 0 then [""]
    else
      var rest := Split(s[1..], sep);
      if s[0] == sep then [""] + rest
      else [[s[0]] + rest[0]] + rest[1..]
  }

  /** Joining what Split returns gives back the string, whatever it is. */
  lemma {:induction false} JoinSplit(s: string, sep: char)
    ensures Join(Split(s, sep), [sep]) == s
    decreases |s|
  {
    if |s| > 0 {
      var rest := Split(s[1..], sep);
      JoinSplit(s[1..], sep);
      if s[0] == sep {
        assert Split(s, sep) == [""] + rest;
        assert ([""] + rest)[1..] == rest;
        assert s == [sep] + s[1..];
      } else {
        JoinFront([s[0]], rest[0], rest[1..], [sep]);
        assert [rest[0]] + rest[1..] == rest;
        assert s == [s[0]] + s[1..];
      }
    }
  }

  /** Text put in front of the first part comes out in front of the joined string. */
  lemma JoinFront(a: string, x: string, tail: seq<string>, sep: string)
    ensures Join([a + x] + tail, sep) == a + Join([x] + tail, sep)
  {
    assert ([a + x] + tail)[1..] == tail;
    assert ([x] + tail)[1..] == tail;
    if |tail| > 0 {
      assert a + x + sep + Join(tail, sep) == a + (x + sep + Join(tail, sep));
    }
  }

  /** A piece without the separator, followed by more text, is the first piece of the split. */
  lemma {:induction false} SplitAfterPiece(p: string, t: string, sep: char)
    requires sep !in p
    ensures Split(p + t, sep) == [p + Split(t, sep)[0]] + Split(t, sep)[1..]
    decreases |p|
  {
    var first := Split(t, sep)[0];
    if |p| == 0 {
      assert p + t == t && p + first == first;
      assert [first] + Split(t, sep)[1..] == Split(t, sep);
    } else {
      SplitAfterPiece(p[1..], t, sep);
      assert (p + t)[0] == p[0] != sep;
      assert (p + t)[1..] == p[1..] + t;
      assert [p[0]] + (p[1..] + first) == p + first;
    }
  }

  /**
   * Splitting a join gives back the parts, as long as there is at least one
   * part and no part contains the separator.
   */
  lemma {:induction false} SplitJoin(parts: seq<string>, sep: char)
    requires |parts| >= 1
    requires forall i :: 0 <= i < |parts| ==> sep !in parts[i]
    ensures Split(Join(parts, [sep]), sep) == parts
    decreases |parts|
  {
    if |parts| == 1 {
      SplitAfterPiece(parts[0], "", sep);
      assert parts[0] + "" == parts[0];
    } else {
      var rest := Join(parts[1..], [sep]);
      SplitJoin(parts[1..], sep);
      assert Join(parts, [sep]) == parts[0] + ([sep] + rest);
      SplitAfterPiece(parts[0], [sep] + rest, sep);
      assert ([sep] + rest)[1..] == rest;
      assert Split([sep] + rest, sep) == [""] + parts[1..];
      assert parts[0] + "" == parts[0];
      assert [parts[0]] + parts[1..] == parts;
    }
  }

  /** The symbols of the options, in order. */
  function Symbols(options: seq<OptionRecord>): (symbols: seq<string>)
    ensures |symbols| == |options|
    ensures forall i :: 0 <= i < |options| ==> symbols[i] == options[i].info.symbol
  {
    seq(|options|, i requires 0 <= i < |options| => options[i].info.symbol)
  }

  /** buildSymbolsList: the options' symbols joined with commas. */
  function BuildSymbolsList(options: seq<OptionRecord>): (list: string)
    ensures |options| == 0 ==> list == ""
    ensures |options| > 0 ==> options[0].info.symbol <= list
  {
    Join(Symbols(options), ",")
  }

  /**
   * The symbols list reads back as the options' symbols when there is at
   * least one option and no symbol contains a comma; no options give "".
   */
  lemma SymbolsListReadsBack(options: seq<OptionRecord>)
    requires forall i :: 0 <= i < |options| ==> ',' !in options[i].info.symbol
    ensures |options| == 0 ==> BuildSymbolsList(options) == ""
    ensures |options| >= 1 ==> Split(BuildSymbolsList(options), ',') == Symbols(options)
  {
    if |options| >= 1 {
      SplitJoin(Symbols(options), ',');
    }
  }
}
