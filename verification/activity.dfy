/** The last-activity banner text the change handler writes. `Parse` is the
    inverse of `Render`: it shows that a banner names its event kind and, for an
    insert or update, the record's name exactly. */
module Activity {
  import opened Wrappers

  /** What a banner announces. */
  datatype Notice = Added(name: string) | Updated(name: string) | Deleted

  const AddedPrefix: string := "New instrument \""
  const AddedSuffix: string := "\" was added!"
  const UpdatedPrefix: string := "Instrument \""
  const UpdatedSuffix: string := "\" was updated!"
  const DeletedText: string := "An instrument was deleted!"

  /** `name` occurs as a contiguous piece of `msg`. */
  predicate Mentions(msg: string, name: string) {
    exists i :: 0 <= i <= |msg| && name <= msg[i..]
  }

  /** The banner text for a notice, as the template literals of the handler build it. */
  function Render(n: Notice): (msg: string)
    ensures !n.Deleted? ==> Mentions(msg, n.name)
    ensures n.Deleted? ==> msg == DeletedText
  {
    match n
    case Added(name) =>
      var msg := AddedPrefix + name + AddedSuffix;
      assert name <= msg[|AddedPrefix|..];
      msg
    case Updated(name) =>
      var msg := UpdatedPrefix + name + UpdatedSuffix;
      assert name <= msg[|UpdatedPrefix|..];
      msg
    case Deleted => DeletedText
  }

  /** `msg` starts with `pre`, ends with `suf`, and the two do not overlap. */
  predicate Framed(msg: string, pre: string, suf: string) {
    |pre| + |suf| <= |msg| && msg[..|pre|] == pre && msg[|msg| - |suf|..] == suf
  }

  /** The text between a frame's prefix and suffix. */
  function Inner(msg: string, pre: string, suf: string): (name: string)
    requires Framed(msg, pre, suf)
    ensures msg == pre + name + suf
  {
    var name := msg[|pre|..|msg| - |suf|];
    assert msg == msg[..|pre|] + name + msg[|msg| - |suf|..];
    name
  }

  /** Reads a banner back into the notice it announces; None for any other text. */
  function Parse(msg: string): (r: Option<Notice>)
    ensures r.Some? ==> Render(r.value) == msg
  {
    if Framed(msg, AddedPrefix, AddedSuffix) then Some(Added(Inner(msg, AddedPrefix, AddedSuffix)))
    else if Framed(msg, UpdatedPrefix, UpdatedSuffix) then Some(Updated(Inner(msg, UpdatedPrefix, UpdatedSuffix)))
    else if msg == DeletedText then Some(Deleted)
    else None
  }

  /** Every banner reads back as the notice it was rendered from. */
  lemma ParseRender(n: Notice)
    ensures Parse(Render(n)) == Some(n)
  {
    var msg := Render(n);
    match n
    case Added(name) =>
      assert msg[..|AddedPrefix|] == AddedPrefix;
      assert msg[|msg| - |AddedSuffix|..] == AddedSuffix;
    case Updated(name) =>
      assert msg[..|UpdatedPrefix|] == UpdatedPrefix;
      assert msg[|msg| - |UpdatedSuffix|..] == UpdatedSuffix;
      assert msg[0] == 'I' != AddedPrefix[0];
    case Deleted =>
      assert msg[0] == 'A';
  }

  /** Different notices never share a banner. */
  lemma RenderInjective(a: Notice, b: Notice)
    requires Render(a) == Render(b)
    ensures a == b
  {
    ParseRender(a);
    ParseRender(b);
  }
}
