/** The state of the instruments page and its transitions: the realtime change
    handler, the initial snapshot fetch and the presence sync. Network delivery,
    timers and rendering are outside; each transition takes what was delivered
    as a parameter. */
module View {
  import opened Wrappers
  import opened Instruments
  import opened ListOps
  import opened Activity

  /** The four pieces of component state the page keeps. */
  datatype View = View(instruments: seq<Instrument>, loading: bool, onlineUsers: nat, lastActivity: string)

  /** The state right after mount: empty list, still loading, nobody counted, no banner. */
  function Mount(): (v: View)
    ensures |v.instruments| == 0 && v.loading && v.onlineUsers == 0
    ensures v.lastActivity == "" && Parse(v.lastActivity) == None
  {
    View([], true, 0, "")
  }

  /** A row-level change notification as the change feed delivers it: the event
      kind, the row after the change and the row before it. */
  datatype ChangePayload = ChangePayload(eventType: string, newRow: Instrument, oldRow: Instrument)

  /** The change a notification asks for. DELETE carries only the old identity,
      since that is all the handler reads of `payload.old`. */
  datatype Change = Insert(row: Instrument) | Update(row: Instrument) | Delete(oldId: int) | Unrecognised(eventType: string)

  /** The `switch (payload.eventType)` of the handler: the three exact,
      case-sensitive kind names, and everything else falls through. */
  function Classify(p: ChangePayload): (c: Change)
    ensures c.Insert? <==> p.eventType == "INSERT"
    ensures c.Update? <==> p.eventType == "UPDATE"
    ensures c.Delete? <==> p.eventType == "DELETE"
    ensures c.Unrecognised? <==> p.eventType !in {"INSERT", "UPDATE", "DELETE"}
    ensures c.Insert? || c.Update? ==> c.row == p.newRow
    ensures c.Delete? ==> c.oldId == p.oldRow.id
  {
    match p.eventType
    case "INSERT" => Insert(p.newRow)
    case "UPDATE" => Update(p.newRow)
    case "DELETE" => Delete(p.oldRow.id)
    case _ => Unrecognised(p.eventType)
  }

  /** The banner a recognised change writes. */
  function NoticeOf(c: Change): (n: Notice)
    requires !c.Unrecognised?
  {
    match c
    case Insert(x) => Added(x.name)
    case Update(x) => Updated(x.name)
    case Delete(_) => Deleted
  }

  /** One change applied to the page state. */
  function Apply(v: View, c: Change): (r: View)
    ensures r.loading == v.loading && r.onlineUsers == v.onlineUsers
    ensures c.Unrecognised? ==> r == v
    ensures !c.Unrecognised? ==> Parse(r.lastActivity) == Some(NoticeOf(c))
    ensures c.Insert? ==> |r.instruments| == |v.instruments| + 1 && r.instruments[0] == c.row
    ensures c.Update? ==> |r.instruments| == |v.instruments|
    ensures c.Delete? ==> !HasId(r.instruments, c.oldId) && |r.instruments| <= |v.instruments|
  {
    match c
    case Insert(x) =>
      ParseRender(Added(x.name));
      v.(instruments := Prepend(v.instruments, x), lastActivity := Render(Added(x.name)))
    case Update(x) =>
      ParseRender(Updated(x.name));
      v.(instruments := ReplaceById(v.instruments, x), lastActivity := Render(Updated(x.name)))
    case Delete(id) =>
      ParseRender(Deleted);
      v.(instruments := RemoveById(v.instruments, id), lastActivity := Render(Deleted))
    case Unrecognised(_) => v
  }

  /** `handleDatabaseChange`: classify the notification, then apply it. */
  function HandleDatabaseChange(v: View, p: ChangePayload): (r: View)
    ensures p.eventType !in {"INSERT", "UPDATE", "DELETE"} ==> r == v
    ensures p.eventType == "INSERT" ==> r.instruments == [p.newRow] + v.instruments
    ensures p.eventType == "UPDATE" ==> r.instruments == ReplaceById(v.instruments, p.newRow)
    ensures p.eventType == "DELETE" ==> r.instruments == RemoveById(v.instruments, p.oldRow.id)
    ensures r.loading == v.loading && r.onlineUsers == v.onlineUsers
    ensures p.eventType == "INSERT" ==> Parse(r.lastActivity) == Some(Added(p.newRow.name))
    ensures p.eventType == "UPDATE" ==> Parse(r.lastActivity) == Some(Updated(p.newRow.name))
    ensures p.eventType == "DELETE" ==> r.lastActivity == DeletedText
  {
    Apply(v, Classify(p))
  }

  /** Applying a change a second time changes nothing exactly when it is not an
      insert: updates, deletes and unrecognised kinds are idempotent, an insert
      never is. */
  lemma ApplyIdempotentIff(v: View, c: Change)
    ensures Apply(Apply(v, c), c) == Apply(v, c) <==> !c.Insert?
  {
    match c
    case Insert(x) =>
      assert |Apply(Apply(v, c), c).instruments| == |Apply(v, c).instruments| + 1;
    case Update(x) =>
      ReplaceIdempotent(v.instruments, x);
    case Delete(id) =>
      RemoveIdempotent(v.instruments, id);
    case Unrecognised(_) =>
  }

  /** Delivering the same insert twice shows the record twice at the front, and
      so breaks distinct identities. */
  lemma InsertTwiceDuplicates(v: View, x: Instrument)
    ensures var r := Apply(Apply(v, Insert(x)), Insert(x)).instruments;
      |r| == |v.instruments| + 2 && r[0] == x && r[1] == x && !DistinctIds(r)
  {
  }

  /** From a cache with distinct identities a change keeps them distinct exactly
      when it is not an insert of an identity already held. */
  lemma ApplyPreservesDistinct(v: View, c: Change)
    requires DistinctIds(v.instruments)
    ensures DistinctIds(Apply(v, c).instruments) <==> !(c.Insert? && HasId(v.instruments, c.row.id))
  {
    match c
    case Insert(x) =>
    case Update(x) =>
      ReplacePreservesDistinct(v.instruments, x);
    case Delete(id) =>
      RemovePreservesDistinct(v.instruments, id);
    case Unrecognised(_) =>
  }

  /** With distinct identities, deleting a held identity shrinks the list by
      exactly one and updating a held identity keeps one copy of the new record. */
  lemma ApplyHeldIdentity(v: View, c: Change)
    requires DistinctIds(v.instruments)
    requires c.Delete? ==> HasId(v.instruments, c.oldId)
    requires c.Update? ==> HasId(v.instruments, c.row.id)
    ensures c.Delete? ==> |Apply(v, c).instruments| == |v.instruments| - 1
    ensures c.Update? ==> CountId(Apply(v, c).instruments, c.row.id) == 1 && c.row in Apply(v, c).instruments
  {
    match c
    case Update(x) =>
      ReplacePreservesDistinct(v.instruments, x);
      ReplaceKeepsIds(v.instruments, x);
      ReplaceInstalls(v.instruments, x);
      DistinctCountAtMostOne(ReplaceById(v.instruments, x), x.id);
    case Delete(id) =>
      RemoveHeldShrinksByOne(v.instruments, id);
    case _ =>
  }

  /** An update or delete for an identity the list does not hold leaves the list
      unchanged; only the banner moves. */
  lemma ApplyAbsentIdentity(v: View, c: Change)
    requires c.Update? ==> !HasId(v.instruments, c.row.id)
    requires c.Delete? ==> !HasId(v.instruments, c.oldId)
    requires c.Update? || c.Delete?
    ensures Apply(v, c).instruments == v.instruments
  {
    match c
    case Update(x) => ReplaceAbsent(v.instruments, x);
    case Delete(id) => RemoveAbsent(v.instruments, id);
  }

  /** What the snapshot query returned: `data` is null when absent, `error` is set
      when the query failed. */
  datatype FetchResponse = FetchResponse(data: Option<seq<Instrument>>, error: Option<string>)

  /** The state after `fetchInstruments` settles: on success the list becomes the
      fetched rows (empty for a null body); on error it is left as it was;
      in both cases loading ends. */
  function FetchInstruments(v: View, resp: FetchResponse): (r: View)
    ensures !r.loading
    ensures resp.error.None? && resp.data.Some? ==> r.instruments == resp.data.value
    ensures resp.error.None? && resp.data.None? ==> |r.instruments| == 0
    ensures resp.error.Some? ==> r.instruments == v.instruments
    ensures r.onlineUsers == v.onlineUsers && r.lastActivity == v.lastActivity
  {
    if resp.error.Some? then v.(loading := false)
    else v.(instruments := resp.data.GetOr([]), loading := false)
  }

  /** The presence-sync handler: the online count is the number of distinct keys
      in the channel's presence state. */
  function PresenceSync<M>(v: View, state: map<string, M>): (r: View)
    ensures r.onlineUsers == |state.Keys|
    ensures r.instruments == v.instruments && r.loading == v.loading && r.lastActivity == v.lastActivity
  {
    v.(onlineUsers := |state|)
  }

  /** A newly tracked key raises the count by one, a re-tracked key leaves it as
      is, and an untracked key lowers it by one. */
  lemma PresenceTrack<M>(v: View, state: map<string, M>, key: string, meta: M)
    ensures key !in state ==> PresenceSync(v, state[key := meta]).onlineUsers == PresenceSync(v, state).onlineUsers + 1
    ensures key in state ==> PresenceSync(v, state[key := meta]).onlineUsers == PresenceSync(v, state).onlineUsers
    ensures key in state ==> PresenceSync(v, state - {key}).onlineUsers == PresenceSync(v, state).onlineUsers - 1
  {
    if key in state {
      assert state[key := meta].Keys == state.Keys;
    }
  }
}
