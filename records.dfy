/** The records held by Astral's stars store module: GitHub star edges merged
    with the tags and notes the Astral backend keeps for them. */
module StarRecords {

  datatype Option<T> = None | Some(value: T)

  /** A tag as the backend returns it. */
  datatype Tag = Tag(id: int, name: string)

  /** The `primaryLanguage` object of a repository node. */
  datatype Language = Language(name: string)

  /** The repository node of a GitHub star edge; `id` is the GraphQL relay id,
      and `primaryLanguage` is null for repositories without one. */
  datatype Node = Node(id: string, primaryLanguage: Option<Language>)

  /** One edge of a GitHub stars page, as the server returns it. */
  datatype Edge = Edge(node: Node)

  /** An edge once the store has given it `tags` and `notes`. */
  datatype Star = Star(node: Node, tags: seq<Tag>, notes: string)

  /** An annotation from the backend's `stars` table, keyed by `relay_id`. */
  datatype UserStar = UserStar(relayId: string, tags: seq<Tag>, notes: string)

  /** `pageInfo` starts as the empty object and is then a copy of the
      server's pagination record. */
  datatype PageInfo = NoPageInfo | PageInfo(hasNextPage: bool, endCursor: Option<string>)

  /** `currentStar`: the empty object, a shallow copy of a star, or the object
      `{ notes }` that setting notes leaves when nothing was selected. */
  datatype Snapshot = NoStar | Copy(star: Star) | NotesOnly(notes: string)

  /** `tags.map(tag => tag.name)` */
  function TagNames(tags: seq<Tag>): seq<string>
  {
    seq(|tags|, i requires 0 <= i < |tags| => tags[i].name)
  }

  /** No two tags in the list share a name. */
  ghost predicate UniqueNames(tags: seq<Tag>)
  {
    forall i, j :: 0 <= i < j < |tags| ==> tags[i].name != tags[j].name
  }

  /** The ids of the stars, in order. */
  function Ids(stars: seq<Star>): seq<string>
  {
    seq(|stars|, i requires 0 <= i < |stars| => stars[i].node.id)
  }
}
