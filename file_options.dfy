/**
 * JsonToOptions without its file read: the text of a saved result set is
 * decoded into options in the file dialect.
 */
module FileOptions {
  import opened Wrappers
  import opened Json
  import opened Library
  import opened Records

  /** The object entries of a JSON array, in order; other entries are skipped. */
  function ObjectsOf(items: seq<Json>): (objs: seq<map<string, Json>>)
    ensures |objs| <= |items|
    decreases |items|
  {
    if items == [] then []
    else
      var last := items[|items| - 1];
      ObjectsOf(items[..|items| - 1]) + (if last.Obj? then [last.fields] else [])
  }

  /** The "options" array of a saved result set, or None when the text has none. */
  function SavedOptions(rt: Runtime, content: string): (r: Option<seq<Json>>)
    ensures content == "" ==> r.None?
    ensures r.Some? <==>
      content != "" && AsTopObject(rt.parseJson(content)).Some?
      && Lookup(AsTopObject(rt.parseJson(content)).value, "options").Arr?
    ensures r.Some? ==> Lookup(AsTopObject(rt.parseJson(content)).value, "options") == Arr(r.value)
  {
    if content == "" then None
    else match AsTopObject(rt.parseJson(content))
      case None => None
      case Some(top) => if Lookup(top, "options").Arr? then Some(Lookup(top, "options").items) else None
  }

  /**
   * JsonToOptions: one option per object entry of the "options" array, each
   * decoded in the file dialect; a text that is empty, not JSON, or has no
   * such array gives no options.
   */
  method JsonToOptions(rt: Runtime, content: string) returns (options: seq<OptionRecord>)
    ensures SavedOptions(rt, content).None? ==> options == []
    ensures SavedOptions(rt, content).Some? ==>
      var objs := ObjectsOf(SavedOptions(rt, content).value);
      && |options| == |objs|
      && forall k :: 0 <= k < |objs| ==> options[k] == DecodeFileOption(rt, objs[k])
  {
    if content == "" {
      return [];
    }
    var top := AsTopObject(rt.parseJson(content));
    if top.None? {
      return [];
    }
    var data := Lookup(top.value, "options");
    if !data.Arr? {
      return [];
    }
    var items := data.items;
    options := [];
    var i := 0;
    while i < |items|
      invariant 0 <= i <= |items|
      invariant |options| == |ObjectsOf(items[..i])|
      invariant forall k :: 0 <= k < |options| ==> options[k] == DecodeFileOption(rt, ObjectsOf(items[..i])[k])
    {
      assert items[..i + 1][..i] == items[..i];
      if items[i].Obj? {
        options := options + [DecodeFileOption(rt, items[i].fields)];
      }
      i := i + 1;
    }
    assert items[..i] == items;
  }
}
