/** Option type used across the model. */
module Wrappers {

  datatype Option<+T> = None | Some(value: T) {

    /** The wrapped value, or `default` when there is none (JavaScript's `??`). */
    function GetOr(default: T): T {
      match this
      case Some(v) => v
      case None => default
    }
  }
}

/** The records exchanged with the TMDB metadata service (src/types/tmdb.ts). */
module TmdbTypes {
  import opened Wrappers

  /** `MediaType`: which half of the catalogue a request or a tab is about. */
  datatype MediaType = Movie | Tv

  /**
   * A catalogue entry as the dashboard sees it. Only the fields the modelled
   * logic reads are kept: a movie is labelled by `title`, a TV show by `name`;
   * `popularity` is optional because the filter treats a missing score as 0.
   */
  datatype Media =
    | MovieItem(id: int, title: string, posterPath: Option<string>, popularity: Option<real>)
    | ShowItem(id: int, name: string, posterPath: Option<string>, popularity: Option<real>)

  /** True when the entry is of the shape the given media type's endpoints return. */
  predicate OfType(m: Media, t: MediaType) {
    match t
    case Movie => m.MovieItem?
    case Tv => m.ShowItem?
  }

  /** `TMDBResponse<T>`: one page of a paginated listing. */
  datatype Page = Page(page: int, results: seq<Media>, totalPages: int, totalResults: int)

  /** The outcome of one remote request: a value, or a thrown error. */
  datatype Fetch<+T> = Ok(value: T) | Failed
}
