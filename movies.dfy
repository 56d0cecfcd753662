/** The movie summary record returned by the search API and kept in the favorites list. */
module Movies {

  /** A movie summary. Only `id` (the API's `imdbID`) is ever compared; the other
      fields are carried along unchanged and only displayed. */
  datatype Movie = Movie(id: string, title: string, year: string, poster: string)
}
