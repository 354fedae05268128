/** The records exchanged by the calendar builder: the listing response, the
    per-film schedule response and the calendar event attributes built from
    them. Field names follow the JSON the remote API returns. */
module Types {

  datatype Option<+T> = None | Some(value: T)

  /** One film offered at the festival theatre. */
  datatype MovieData = MovieData(id: string, theatreId: string, movieId: string, movieName: string)

  /** A sub-layer of a recommendation group: an ordered list of films. */
  datatype TheatreSubLayer = TheatreSubLayer(theatreMovieList: seq<MovieData>)

  /** A recommendation group of the listing response. */
  datatype Recommendation = Recommendation(theatreSubLayerList: seq<TheatreSubLayer>)

  /** The body of the listing response. */
  datatype AllMoviesData = AllMoviesData(data: seq<Recommendation>)

  /** One screening: the film's own fields, then where and when it is shown.
      `showTime` and `showEndTime` are epoch milliseconds. */
  datatype MovieScheduleData = MovieScheduleData(
    id: string,
    theatreId: string,
    movieId: string,
    movieName: string,
    cinemaName: string,
    cityName: string,
    cinemaAddress: string,
    hallName: string,
    showTime: int,
    showEndTime: int,
    meetingInfo: string)

  /** The screenings of one day; a schedule response is a list of these.
      The date is kept as the text the API sends. */
  datatype ShowDay = ShowDay(showDate: string, showList: seq<MovieScheduleData>)

  /** Local date and time fields of an event, as the calendar library takes them. */
  type DateArray = seq<int>

  /** Turns epoch milliseconds into local date and time fields. */
  type Formatter = int -> DateArray

  /** The attributes of one calendar event handed to the calendar serialiser. */
  datatype EventAttributes = EventAttributes(
    title: string,
    description: string,
    start: DateArray,
    end: DateArray,
    categories: seq<string>,
    status: string,
    busyStatus: string,
    location: string)
}
