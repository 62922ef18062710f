/** The records shared by the event screen and the discovery service (types.ts). */
module Types {

  /** One discovered event. Every field is free text supplied by the AI backend;
      only `id` (identity for favourites) and `isoDate` (time comparisons) are
      used for computation. */
  datatype EventItem = EventItem(
    id: string,
    title: string,
    category: string,
    date: string,
    isoDate: string,
    location: string,
    description: string,
    vibe: string)

  /** A citation the backend attaches to an answer. */
  datatype GroundingSource = GroundingSource(title: string, uri: string)
}
