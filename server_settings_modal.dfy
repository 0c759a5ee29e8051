/** src/components/server/ServerSettingsModal.tsx: the settings dialog that
    keeps the server row in state with its metadata decoded, loading it once
    and replacing it on every realtime `UPDATE` of that row. */
module ServerSettingsModal {
  import opened Common
  import opened Json
  import opened Servers
  import opened ServerTransforms

  /** A server as this modal stores it: the row with decoded metadata. */
  type Server = ServerRow<ServerMetadata>

  /** The copy of the decoder declared inside `fetchServer`, written with the
      full optional chain on every leaf; it agrees with the shared decoder on
      every input. */
  function InlineTransformServerMetadata(metadata: Json): (r: ServerMetadata)
    ensures r == TransformServerMetadata(metadata)
  {
    var meta := Some(metadata);
    ServerMetadata(
      Coalesce(Member(meta, "boost_status"), JNull),
      Coalesce(Member(meta, "verification_level"), JNumber(0.0)),
      Features(
        Coalesce(Member(Member(meta, "features"), "community"), JBool(false)),
        WelcomeScreen(
          Coalesce(Member(Member(Member(meta, "features"), "welcome_screen"), "enabled"), JBool(false)),
          Coalesce(Member(Member(Member(meta, "features"), "welcome_screen"), "description"), JNull),
          Coalesce(Member(Member(Member(meta, "features"), "welcome_screen"), "welcome_channels"), JArray([])))))
  }

  /** `{ ...data, metadata: transformServerMetadata(data.metadata) }`: every
      column is kept, and putting the raw metadata back gives the row again. */
  function DecodeServer(row: RawServer): (s: Server)
    ensures WithMetadata(s, row.metadata) == row
    ensures s.metadata == TransformServerMetadata(row.metadata)
    ensures Complete(s.metadata)
  {
    WithMetadata(row, InlineTransformServerMetadata(row.metadata))
  }

  /** The events that change the stored server: a successful fetch and an
      `UPDATE` change. */
  predicate Loads(e: Event) {
    e.Fetched? || (e.Changed? && e.eventType == Update)
  }

  function LoadedRow(e: Event): RawServer
    requires Loads(e)
  {
    if e.Fetched? then e.row else e.newRow
  }

  /** How one event changes the stored server, with the realtime handler
      applying the decoder declared in `fetchServer` as evidently intended. */
  function Reduce(state: Option<Server>, e: Event): Option<Server> {
    match e
    case Fetched(row) => Some(DecodeServer(row))
    case FetchFailed => state
    case Changed(eventType, newRow) =>
      if eventType == Update then Some(DecodeServer(newRow)) else state
  }

  /** The realtime handler as written: it names `transformServerMetadata`,
      which is declared only inside `fetchServer` and not imported, so the
      call raises a reference error before `setServer` runs and an `UPDATE`
      leaves the state as it was. */
  function ReduceAsWritten(state: Option<Server>, e: Event): Option<Server> {
    match e
    case Fetched(row) => Some(DecodeServer(row))
    case FetchFailed => state
    case Changed(_, _) => state
  }

  /** The state after a series of events, oldest first. */
  function ReduceAll(state: Option<Server>, events: seq<Event>): Option<Server>
    decreases |events|
  {
    if events == [] then state
    else Reduce(ReduceAll(state, events[..|events| - 1]), events[|events| - 1])
  }

  /** One event: a load stores the decoded row; a fetch error, an `INSERT`
      and a `DELETE` leave the state unchanged. */
  lemma ReduceRules(state: Option<Server>, e: Event)
    ensures Loads(e) ==> Reduce(state, e) == Some(DecodeServer(LoadedRow(e)))
    ensures !Loads(e) ==> Reduce(state, e) == state
  {
  }

  /** The stored server stays null until some event loads a row: on first
      load a failed fetch leaves nothing to render. */
  lemma {:induction false} NullUntilLoaded(events: seq<Event>)
    ensures ReduceAll(None, events) == None <==> forall i :: 0 <= i < |events| ==> !Loads(events[i])
  {
    if events != [] {
      var init := events[..|events| - 1];
      NullUntilLoaded(init);
      assert forall i :: 0 <= i < |init| ==> init[i] == events[i];
    }
  }

  /** The last loading event decides the state: later fetch errors and
      non-`UPDATE` changes do not disturb it. */
  lemma {:induction false} LastLoadWins(state: Option<Server>, events: seq<Event>, k: nat)
    requires k < |events| && Loads(events[k])
    requires forall j :: k < j < |events| ==> !Loads(events[j])
    ensures ReduceAll(state, events) == Some(DecodeServer(LoadedRow(events[k])))
    decreases |events|
  {
    var init := events[..|events| - 1];
    if k < |events| - 1 {
      assert forall j :: k < j < |init| ==> init[j] == events[j];
      LastLoadWins(state, init, k);
    }
  }

  /** Whatever the events, a stored server's metadata is complete, so it is
      a fixed point of decoding. */
  lemma {:induction false} StoredMetadataIsDecoded(events: seq<Event>)
    ensures var s := ReduceAll(None, events);
      s.Some? ==> Complete(s.value.metadata) && TransformServerMetadata(ToJson(s.value.metadata)) == s.value.metadata
  {
    if events != [] {
      StoredMetadataIsDecoded(events[..|events| - 1]);
    }
    var s := ReduceAll(None, events);
    if s.Some? {
      RoundTripIffComplete(s.value.metadata);
    }
  }

  /** As written, no realtime event ever changes the state, while the
      intended handler stores the new row of an `UPDATE`. */
  lemma AsWrittenIgnoresUpdates(state: Option<Server>, eventType: EventType, row: RawServer)
    ensures ReduceAsWritten(state, Changed(eventType, row)) == state
    ensures state == None ==> Reduce(state, Changed(Update, row)) != ReduceAsWritten(state, Changed(Update, row))
  {
  }

  /** What the modal renders: the server and the selected tab. */
  datatype View = View(server: Server, activeTab: string)

  /** The component's state: the stored server, the selected tab, and
      whether the fetch is in flight and the subscription open. */
  class SettingsModal {
    const serverId: string
    var server: Option<Server>
    var activeTab: string
    var fetchPending: bool
    var subscribed: bool

    /** An empty `serverId` starts no fetch and no subscription. */
    ghost predicate Valid()
      reads this
    {
      serverId == "" ==> server == None && !fetchPending && !subscribed
    }

    constructor (serverId: string)
      ensures Valid() && this.serverId == serverId
      ensures server == None && activeTab == "general" && !fetchPending && !subscribed
    {
      this.serverId := serverId;
      server := None;
      activeTab := "general";
      fetchPending := false;
      subscribed := false;
    }

    /** The effect: with a non-empty id, start the fetch and subscribe to
      changes of that row. */
    method Mount()
      requires Valid()
      modifies this`fetchPending, this`subscribed
      ensures Valid()
      ensures fetchPending == (serverId != "" || old(fetchPending))
      ensures subscribed == (serverId != "" || old(subscribed))
    {
      if serverId == "" {
        return;
      }
      fetchPending := true;
      subscribed := true;
    }

    /** The fetch settles with the row, or with an error (`None`). */
    method FetchSettled(row: Option<RawServer>)
      requires Valid() && fetchPending
      modifies this`server, this`fetchPending
      ensures Valid() && !fetchPending
      ensures server == Reduce(old(server), if row.Some? then Fetched(row.value) else FetchFailed)
    {
      fetchPending := false;
      if row.None? {
        return;
      }
      server := Some(DecodeServer(row.value));
    }

    /** A realtime change of the subscribed row. */
    method Notify(eventType: EventType, newRow: RawServer)
      requires Valid() && subscribed
      modifies this`server
      ensures Valid()
      ensures server == Reduce(old(server), Changed(eventType, newRow))
    {
      if eventType == Update {
        server := Some(DecodeServer(newRow));
      }
    }

    /** The effect's cleanup removes the channel. */
    method Unmount()
      modifies this`subscribed
      ensures !subscribed
    {
      subscribed := false;
    }

    method SelectTab(tab: string)
      modifies this`activeTab
      ensures activeTab == tab
    {
      activeTab := tab;
    }

    /** Nothing is rendered while the server is null. */
    method Render() returns (view: Option<View>)
      ensures view.None? <==> server.None?
      ensures view.Some? ==> view.value.server == server.value && view.value.activeTab == activeTab
    {
      if server.None? {
        return None;
      }
      return Some(View(server.value, activeTab));
    }
  }
}
