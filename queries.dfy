/**
 * What the data hooks hand to react-query, as values: query keys, whether a query is enabled,
 * and its stale time. Fetching and caching themselves are not part of this model.
 */
module Queries {
  import opened Wrappers

  /** One element of a query key: a literal string, or a filter object of type `F`. */
  datatype KeyPart<F> = Name(name: string) | Object(value: F)

  /**
   * A key given to `invalidateQueries`, `setQueriesData` or `removeQueries` selects every
   * cached key it is a prefix of.
   */
  predicate Selects<F(==)>(filter: seq<KeyPart<F>>, key: seq<KeyPart<F>>) {
    filter <= key
  }

  /** `5 * 60 * 1000`: five minutes, the stale time the hooks fall back on. */
  const DefaultStaleTime: int := 5 * 60 * 1000

  /** The options a `useQuery` call receives that this model keeps. */
  datatype QueryConfig<F> = QueryConfig(key: seq<KeyPart<F>>, enabled: bool, staleTime: int)

  /** `(options?.enabled ?? true) && !!id`: enabled unless switched off, and only for a non-empty id. */
  predicate EnabledFor(enabled: Option<bool>, id: string) {
    enabled.GetOr(true) && id != ""
  }
}
