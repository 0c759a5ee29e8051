/** A row of the `servers` table (src/integrations/supabase/types.ts) and
    the outcomes the settings modals receive from the backend: the result of
    the initial fetch and the realtime change events. */
module Servers {
  import opened Common
  import opened Json

  /** The columns of a `servers` row. `M` is the type of the `metadata`
      column: raw `Json` as stored, or a decoded record. */
  datatype ServerRow<M> = ServerRow(
    id: string,
    name: string,
    iconUrl: Option<string>,
    ownerId: Option<string>,
    createdAt: Option<string>,
    updatedAt: Option<string>,
    features: Json,
    verificationLevel: Option<int>,
    metadata: M)

  type RawServer = ServerRow<Json>

  /** The same row with its `metadata` column replaced. */
  function WithMetadata<M, N>(row: ServerRow<M>, metadata: N): ServerRow<N> {
    ServerRow(row.id, row.name, row.iconUrl, row.ownerId, row.createdAt, row.updatedAt,
              row.features, row.verificationLevel, metadata)
  }

  /** The `eventType` of a realtime change payload. */
  datatype EventType = Insert | Update | Delete

  /** What can reach a settings modal: the single-row fetch settling with a
      row or an error, or a change event on the subscribed row carrying the
      payload's `new` row. */
  datatype Event =
    | Fetched(row: RawServer)
    | FetchFailed
    | Changed(eventType: EventType, newRow: RawServer)
}
