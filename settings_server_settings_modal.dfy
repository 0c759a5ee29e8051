/** src/components/server/settings/ServerSettingsModal.tsx: the settings
    dialog that stores the fetched row and every `UPDATE` payload verbatim,
    with no metadata decoding. */
module VerbatimSettingsModal {
  import opened Common
  import opened Servers
  import Decoding = ServerSettingsModal

  /** How one event changes the stored row: a fetched row and the `new` row
      of an `UPDATE` are stored as they are. */
  function Reduce(state: Option<RawServer>, e: Event): Option<RawServer> {
    match e
    case Fetched(row) => Some(row)
    case FetchFailed => state
    case Changed(eventType, newRow) => if eventType == Update then Some(newRow) else state
  }

  function ReduceAll(state: Option<RawServer>, events: seq<Event>): Option<RawServer>
    decreases |events|
  {
    if events == [] then state
    else Reduce(ReduceAll(state, events[..|events| - 1]), events[|events| - 1])
  }

  /** One event: a load stores the payload row unchanged; a fetch error, an
      `INSERT` and a `DELETE` leave the state unchanged. */
  lemma ReduceRules(state: Option<RawServer>, e: Event)
    ensures Decoding.Loads(e) ==> Reduce(state, e) == Some(Decoding.LoadedRow(e))
    ensures !Decoding.Loads(e) ==> Reduce(state, e) == state
  {
  }

  function DecodeOption(s: Option<RawServer>): Option<Decoding.Server> {
    if s.Some? then Some(Decoding.DecodeServer(s.value)) else None
  }

  /** The two modals agree up to decoding: after any events, this one's row
      decoded is what the decoding modal stores. */
  lemma {:induction false} AgreesUpToDecoding(state: Option<RawServer>, events: seq<Event>)
    ensures Decoding.ReduceAll(DecodeOption(state), events) == DecodeOption(ReduceAll(state, events))
    decreases |events|
  {
    if events != [] {
      AgreesUpToDecoding(state, events[..|events| - 1]);
    }
  }

  /** What the modal renders: the row and the selected tab. */
  datatype View = View(server: RawServer, activeTab: string)

  class SettingsModal {
    const serverId: string
    var server: Option<RawServer>
    var activeTab: string
    var fetchPending: bool
    var subscribed: bool

    /** An empty `serverId` starts no fetch and no subscription. */
    ghost predicate Valid()
      reads this
    {
      serverId == "" ==> server == None && !fetchPending && !subscribed
    }

    constructor (serverId: string)
      ensures Valid() && this.serverId == serverId
      ensures server == None && activeTab == "general" && !fetchPending && !subscribed
    {
      this.serverId := serverId;
      server := None;
      activeTab := "general";
      fetchPending := false;
      subscribed := false;
    }

    method Mount()
      requires Valid()
      modifies this`fetchPending, this`subscribed
      ensures Valid()
      ensures fetchPending == (serverId != "" || old(fetchPending))
      ensures subscribed == (serverId != "" || old(subscribed))
    {
      if serverId == "" {
        return;
      }
      fetchPending := true;
      subscribed := true;
    }

    /** The fetch settles with the row, or with an error (`None`). */
    method FetchSettled(row: Option<RawServer>)
      requires Valid() && fetchPending
      modifies this`server, this`fetchPending
      ensures Valid() && !fetchPending
      ensures server == Reduce(old(server), if row.Some? then Fetched(row.value) else FetchFailed)
    {
      fetchPending := false;
      if row.None? {
        return;
      }
      server := row;
    }

    method Notify(eventType: EventType, newRow: RawServer)
      requires Valid() && subscribed
      modifies this`server
      ensures Valid()
      ensures server == Reduce(old(server), Changed(eventType, newRow))
    {
      if eventType == Update {
        server := Some(newRow);
      }
    }

    method Unmount()
      modifies this`subscribed
      ensures !subscribed
    {
      subscribed := false;
    }

    method SelectTab(tab: string)
      modifies this`activeTab
      ensures activeTab == tab
    {
      activeTab := tab;
    }

    /** Nothing is rendered while the server is null. */
    method Render() returns (view: Option<View>)
      ensures view.None? <==> server.None?
      ensures view.Some? ==> view.value.server == server.value && view.value.activeTab == activeTab
    {
      if server.None? {
        return None;
      }
      return Some(View(server.value, activeTab));
    }
  }
}
