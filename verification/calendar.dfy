/** One run put together: the flattened listing gives one schedule request
    per film, each completed response is appended to the buffer, and once the
    queue is idle the buffer becomes the list of calendar events. The request
    scheduling itself is not modelled; completed responses arrive as a list
    in completion order. */
module Calendar {
  import opened Types
  import Seqs
  import Catalogue
  import Schedules
  import Events

  /** The query of one schedule request. */
  datatype Task = Task(theatreId: string, movieId: string)

  /** One request per listed film, in listing order; duplicate films are
      requested again. */
  function Tasks(allMovies: seq<MovieData>): seq<Task>
  {
    seq(|allMovies|, i requires 0 <= i < |allMovies| => Task(allMovies[i].theatreId, allMovies[i].movieId))
  }

  /** The events handed to the calendar serialiser once every response in
      `completions` has been handled: event k is generated from the k-th
      screening of the responses, taken in completion order and day order. */
  function CalendarEvents(completions: seq<seq<ShowDay>>, format: Formatter): (events: seq<EventAttributes>)
    ensures |events| == Schedules.TotalShows(completions)
    ensures var shows := Seqs.Concat(Seqs.Map(Schedules.ShowsOf, completions));
            |events| == |shows|
            && forall k :: 0 <= k < |events| ==> events[k] == Events.GenerateEventData(shows[k], format)
  {
    Schedules.AggregateLength([], completions);
    Schedules.AggregateAppends([], completions);
    assert [] + Seqs.Concat(Seqs.Map(Schedules.ShowsOf, completions))
        == Seqs.Concat(Seqs.Map(Schedules.ShowsOf, completions));
    Events.ToEvents(Schedules.Aggregate([], completions), format)
  }

  /** The listing yields as many requests as it lists films, and every listed
      film has its request. */
  lemma TasksOfListing(data: seq<Recommendation>)
    ensures |Tasks(Catalogue.Flatten(data))| == Catalogue.CatalogueSize(data)
    ensures forall m :: m in Catalogue.Flatten(data) ==> Task(m.theatreId, m.movieId) in Tasks(Catalogue.Flatten(data))
  {
    var flat := Catalogue.Flatten(data);
    Catalogue.FlattenLength(data);
    forall m | m in flat
      ensures Task(m.theatreId, m.movieId) in Tasks(flat)
    {
      var i :| 0 <= i < |flat| && flat[i] == m;
      assert Tasks(flat)[i] == Task(m.theatreId, m.movieId);
    }
  }

  /** The request for each listed film sits where that film sits in the
      flattened listing: the k-th film of sub-layer `s` of group `g` gets the
      request at Position(data, g, s) + k, so a film listed twice is requested
      twice, each time at its own place. */
  lemma TasksAt(data: seq<Recommendation>, g: nat, s: nat, k: nat)
    requires g < |data| && s < |data[g].theatreSubLayerList|
    requires k < |data[g].theatreSubLayerList[s].theatreMovieList|
    ensures var film := data[g].theatreSubLayerList[s].theatreMovieList[k];
            && Catalogue.Position(data, g, s) + k < |Tasks(Catalogue.Flatten(data))|
            && Tasks(Catalogue.Flatten(data))[Catalogue.Position(data, g, s) + k]
               == Task(film.theatreId, film.movieId)
  {
    Catalogue.FlattenAt(data, g, s, k);
  }

  /** Later completions only add events behind the ones already there. */
  lemma CalendarEventsExtend(first: seq<seq<ShowDay>>, second: seq<seq<ShowDay>>, format: Formatter)
    ensures var before := CalendarEvents(first, format);
            var after := CalendarEvents(first + second, format);
            |before| <= |after| && after[..|before|] == before
  {
    var buffer := Schedules.Aggregate([], first);
    Schedules.AggregateSplit([], first, second);
    var whole := Schedules.Aggregate(buffer, second);
    assert whole == buffer + whole[|buffer|..];
    Events.ToEventsAppend(buffer, whole[|buffer|..], format);
  }

  /** The events' content does not depend on the order in which responses
      complete, only their order does. */
  lemma CalendarEventsOrderIndependent(c1: seq<seq<ShowDay>>, c2: seq<seq<ShowDay>>, format: Formatter)
    requires multiset(c1) == multiset(c2)
    ensures multiset(CalendarEvents(c1, format)) == multiset(CalendarEvents(c2, format))
  {
    Schedules.AggregateOrderIndependent([], c1, c2);
    Events.ToEventsPermutation(Schedules.Aggregate([], c1), Schedules.Aggregate([], c2), format);
  }

  /** An empty listing gives no requests, hence no responses and no events. */
  lemma EmptyListing(format: Formatter)
    ensures Tasks(Catalogue.Flatten([])) == []
    ensures CalendarEvents([], format) == []
  {
  }

  /** One group holding one sub-layer holding one film gives one request for
      that film. */
  lemma OneFilmListing()
    ensures var film := MovieData("1", "97", "123", "Test Film");
            Tasks(Catalogue.Flatten([Recommendation([TheatreSubLayer([film])])])) == [Task("97", "123")]
  {
  }

  /** The sample screening: "Test Film" at "Cinema A", "Hall 1", "City", "Addr 1". */
  function SampleShow(): MovieScheduleData
  {
    MovieScheduleData("1", "97", "123", "Test Film", "Cinema A", "City", "Addr 1",
                      "Hall 1", 1700000000000, 1700003600000, "")
  }

  /** The sample screening's event: the description and location join the
      cinema to the hall, and to the city and address, as the handler does. */
  lemma SampleShowEvent(format: Formatter)
    ensures Events.GenerateEventData(SampleShow(), format)
         == EventAttributes("Test Film", "Cinema A Hall 1", format(1700000000000), format(1700003600000),
                            ["Cinema A"], "CONFIRMED", "BUSY", "Cinema A CityAddr 1")
  {
    assert "Cinema A" + " " + "Hall 1" == "Cinema A Hall 1";
    assert "Cinema A" + " " + "City" + "Addr 1" == "Cinema A CityAddr 1";
  }

  /** One response with one day holding the sample screening gives exactly
      one event, the sample screening's. */
  lemma OneScreening(format: Formatter)
    ensures CalendarEvents([[ShowDay("2023-11-15", [SampleShow()])]], format)
         == [EventAttributes("Test Film", "Cinema A Hall 1", format(1700000000000), format(1700003600000),
                             ["Cinema A"], "CONFIRMED", "BUSY", "Cinema A CityAddr 1")]
  {
    var show := SampleShow();
    var day := ShowDay("2023-11-15", [show]);
    assert Schedules.ShowLists([day]) == [[show]];
    assert Schedules.ShowsOf([day]) == [show] by {
      assert Seqs.Concat([[show]]) == [show] + Seqs.Concat([[show]][1..]);
      assert [[show]][1..] == [];
    }
    assert Schedules.Aggregate([], [[day]]) == [show];
    assert Events.ToEvents([show], format) == [Events.GenerateEventData(show, format)];
    SampleShowEvent(format);
  }
}
