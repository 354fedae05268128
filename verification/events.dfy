/** The event step: each buffered screening is projected into the attributes
    of one calendar event, and the whole buffer is mapped one to one.
    Turning epoch milliseconds into date fields is left to a `Formatter`
    supplied by the caller. */
module Events {
  import opened Types
  import Seqs

  const Confirmed: string := "CONFIRMED"
  const Busy: string := "BUSY"

  /** What an event keeps of a screening. City and address are kept only as
      their concatenation, since the location puts nothing between them. */
  datatype Screening = Screening(
    movieName: string,
    cinemaName: string,
    hallName: string,
    cityAndAddress: string,
    start: DateArray,
    end: DateArray)

  function Kept(s: MovieScheduleData, format: Formatter): Screening
  {
    Screening(s.movieName, s.cinemaName, s.hallName, s.cityName + s.cinemaAddress,
              format(s.showTime), format(s.showEndTime))
  }

  /** `prefix` followed by a space opens `text`. */
  predicate OpensWith(text: string, prefix: string)
  {
    |prefix| + 1 <= |text| && text[..|prefix| + 1] == prefix + " "
  }

  /** Reads a screening back from event attributes: the single category is the
      cinema, and it opens both the description and the location, each time
      followed by one space. None when the attributes do not have that shape. */
  function Parse(e: EventAttributes): Option<Screening>
  {
    if |e.categories| == 1 && e.status == Confirmed && e.busyStatus == Busy
       && OpensWith(e.description, e.categories[0])
       && OpensWith(e.location, e.categories[0])
    then
      var n := |e.categories[0]| + 1;
      Some(Screening(e.title, e.categories[0], e.description[n..], e.location[n..], e.start, e.end))
    else None
  }

  /** The event for one screening. The title is the film, the description is
      the cinema and the hall, the single category is the cinema, the location
      is the cinema, then city and address with nothing between them; status
      and busy status are fixed. */
  function GenerateEventData(s: MovieScheduleData, format: Formatter): (e: EventAttributes)
    ensures Parse(e) == Some(Kept(s, format))
  {
    var e := EventAttributes(
      s.movieName,
      s.cinemaName + " " + s.hallName,
      format(s.showTime),
      format(s.showEndTime),
      [s.cinemaName],
      Confirmed,
      Busy,
      s.cinemaName + " " + s.cityName + s.cinemaAddress);
    assert (s.cinemaName + " " + s.hallName)[|s.cinemaName| + 1..] == s.hallName;
    assert (s.cinemaName + " " + s.cityName + s.cinemaAddress)[|s.cinemaName| + 1..]
        == s.cityName + s.cinemaAddress;
    e
  }

  /** Two screenings give the same event exactly when they agree on film,
      cinema, hall, the concatenation of city and address, and the formatted
      start and end. Ids, the meeting information, and where city ends and
      address begins are lost. */
  lemma GenerateEventDataInjective(s1: MovieScheduleData, s2: MovieScheduleData, format: Formatter)
    ensures GenerateEventData(s1, format) == GenerateEventData(s2, format)
        <==> Kept(s1, format) == Kept(s2, format)
  {
  }

  /** The buffer mapped to events, one event per screening. Defined by
      recursion, so that its contract is proved from the recursive call's;
      `ToEventsIsMap` equates it with the generic `Seqs.Map`, which the
      permutation argument shared with the schedule buffer is stated over. */
  function ToEvents(allSchedules: seq<MovieScheduleData>, format: Formatter): (events: seq<EventAttributes>)
    ensures |events| == |allSchedules|
    ensures forall i :: 0 <= i < |allSchedules| ==> events[i] == GenerateEventData(allSchedules[i], format)
    decreases |allSchedules|
  {
    if |allSchedules| == 0 then []
    else [GenerateEventData(allSchedules[0], format)] + ToEvents(allSchedules[1..], format)
  }

  /** Mapping distributes over appending to the buffer: the events of earlier
      screenings are unchanged by later ones. */
  lemma ToEventsAppend(a: seq<MovieScheduleData>, b: seq<MovieScheduleData>, format: Formatter)
    ensures ToEvents(a + b, format) == ToEvents(a, format) + ToEvents(b, format)
  {
  }

  /** The recursive mapping agrees with mapping `f` element-wise, for any `f`
      that generates each screening's event. */
  lemma ToEventsIsMap(allSchedules: seq<MovieScheduleData>, format: Formatter, f: MovieScheduleData -> EventAttributes)
    requires forall s :: f(s) == GenerateEventData(s, format)
    ensures ToEvents(allSchedules, format) == Seqs.Map(f, allSchedules)
  {
    var events := ToEvents(allSchedules, format);
    forall i | 0 <= i < |allSchedules|
      ensures events[i] == Seqs.Map(f, allSchedules)[i]
    {
    }
  }

  /** Reordering the buffer reorders the events and changes nothing else. */
  lemma ToEventsPermutation(a: seq<MovieScheduleData>, b: seq<MovieScheduleData>, format: Formatter)
    requires multiset(a) == multiset(b)
    ensures multiset(ToEvents(a, format)) == multiset(ToEvents(b, format))
  {
    var f := (s: MovieScheduleData) => GenerateEventData(s, format);
    ToEventsIsMap(a, format, f);
    ToEventsIsMap(b, format, f);
    Seqs.MapPermutation(f, a, b);
  }
}
