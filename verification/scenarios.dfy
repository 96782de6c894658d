/** Worked examples of the page state through the handler. A notification's unread half (`oldRow` on INSERT and UPDATE,
    `newRow` on DELETE) is an arbitrary placeholder row. */
module Scenarios {
  import opened Wrappers
  import opened Instruments
  import opened Activity
  import opened View

  const Piano := Instrument(1, "Piano", "Keyboard", "T1")
  const Drums := Instrument(2, "Drums", "Percussion", "T2")
  const Violin := Instrument(5, "Violin", "String", "T0")
  const Viola := Instrument(5, "Viola", "String", "T0")
  const Blank := Instrument(0, "", "", "")

  /** A one-row snapshot followed by an INSERT: the new row is in front, the
      banner names it, and loading is over. */
  lemma SnapshotThenInsert()
    ensures var v := FetchInstruments(Mount(), FetchResponse(Some([Piano]), None));
      var r := HandleDatabaseChange(v, ChangePayload("INSERT", Drums, Blank));
      r.instruments == [Drums, Piano] && !r.loading && Mentions(r.lastActivity, "Drums")
  {
  }

  /** An UPDATE renames a held row in place and a later DELETE of its identity
      removes exactly that row. */
  lemma UpdateThenDelete()
    ensures var v := FetchInstruments(Mount(), FetchResponse(Some([Violin, Piano]), None));
      var u := HandleDatabaseChange(v, ChangePayload("UPDATE", Viola, Violin));
      var d := HandleDatabaseChange(u, ChangePayload("DELETE", Blank, Viola));
      u.instruments == [Viola, Piano] && d.instruments == [Piano]
      && |d.instruments| == |u.instruments| - 1 && d.lastActivity == DeletedText
  {
  }

  /** A failed snapshot leaves the list as it was and still ends loading; a
      lower-case kind name is not recognised. */
  lemma FailedSnapshotAndUnknownKind()
    ensures var v := FetchInstruments(Mount(), FetchResponse(None, Some("timeout")));
      v.instruments == [] && !v.loading
      && HandleDatabaseChange(v, ChangePayload("insert", Drums, Blank)) == v
  {
  }
}
