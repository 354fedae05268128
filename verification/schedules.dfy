/** The schedule step: every completed per-film schedule response is a list of
    days, each with its screenings; the completion handler appends each
    screening to one buffer that only grows. */
module Schedules {
  import opened Types
  import Seqs

  /** The screening lists of a response's days, in day order. */
  function ShowLists(data: seq<ShowDay>): seq<seq<MovieScheduleData>>
  {
    seq(|data|, i requires 0 <= i < |data| => data[i].showList)
  }

  /** Every screening of one response, day after day; the grouping by date is
      dropped. */
  function ShowsOf(data: seq<ShowDay>): seq<MovieScheduleData>
  {
    Seqs.Concat(ShowLists(data))
  }

  /** The number of screenings one response holds. */
  function ShowCount(data: seq<ShowDay>): nat
  {
    if |data| == 0 then 0 else |data[0].showList| + ShowCount(data[1..])
  }

  /** The number of screenings a run of responses holds. */
  function TotalShows(completions: seq<seq<ShowDay>>): nat
  {
    if |completions| == 0 then 0 else ShowCount(completions[0]) + TotalShows(completions[1..])
  }

  /** The completion handler: pushes every screening of every day of one
      response onto the buffer, in order. */
  method OnCompleted(allSchedules: seq<MovieScheduleData>, data: seq<ShowDay>)
    returns (r: seq<MovieScheduleData>)
    ensures r == allSchedules + ShowsOf(data)
    ensures |r| == |allSchedules| + ShowCount(data)
  {
    r := allSchedules;
    var i := 0;
    while i < |data|
      invariant 0 <= i <= |data|
      invariant r == allSchedules + ShowsOf(data[..i])
    {
      var showList := data[i].showList;
      var j := 0;
      while j < |showList|
        invariant 0 <= j <= |showList|
        invariant r == allSchedules + ShowsOf(data[..i]) + showList[..j]
      {
        assert showList[..j + 1] == showList[..j] + [showList[j]];
        r := r + [showList[j]];
        j := j + 1;
      }
      assert showList[..j] == showList;
      assert ShowLists(data[..i + 1]) == ShowLists(data[..i]) + [showList];
      Seqs.ConcatSnoc(ShowLists(data[..i]), showList);
      i := i + 1;
    }
    assert data[..i] == data;
    ShowsOfLength(data);
  }

  lemma {:induction false} ShowsOfLength(data: seq<ShowDay>)
    ensures |ShowsOf(data)| == ShowCount(data)
    decreases |data|
  {
    if |data| > 0 {
      assert ShowLists(data)[1..] == ShowLists(data[1..]);
      ShowsOfLength(data[1..]);
    }
  }

  /** The buffer after the handler has run once per completed response, in
      completion order. */
  function Aggregate(allSchedules: seq<MovieScheduleData>, completions: seq<seq<ShowDay>>)
    : (r: seq<MovieScheduleData>)
    ensures |allSchedules| <= |r| && r[..|allSchedules|] == allSchedules
    decreases |completions|
  {
    if |completions| == 0 then allSchedules
    else Aggregate(allSchedules + ShowsOf(completions[0]), completions[1..])
  }

  /** Aggregation appends the screenings of every response, response after
      response, behind what the buffer already held. */
  lemma {:induction false} AggregateAppends(allSchedules: seq<MovieScheduleData>, completions: seq<seq<ShowDay>>)
    ensures Aggregate(allSchedules, completions) == allSchedules + Seqs.Concat(Seqs.Map(ShowsOf, completions))
    decreases |completions|
  {
    if |completions| > 0 {
      AggregateAppends(allSchedules + ShowsOf(completions[0]), completions[1..]);
      assert Seqs.Map(ShowsOf, completions)[1..] == Seqs.Map(ShowsOf, completions[1..]);
    }
  }

  /** Running the handler over two runs of responses in turn is running it
      over their concatenation. */
  lemma {:induction false} AggregateSplit(allSchedules: seq<MovieScheduleData>, first: seq<seq<ShowDay>>, second: seq<seq<ShowDay>>)
    ensures Aggregate(allSchedules, first + second) == Aggregate(Aggregate(allSchedules, first), second)
    decreases |first|
  {
    if |first| == 0 {
      assert first + second == second;
    } else {
      assert (first + second)[1..] == first[1..] + second;
      AggregateSplit(allSchedules + ShowsOf(first[0]), first[1..], second);
    }
  }

  /** The buffer holds exactly the screenings the responses hold. */
  lemma {:induction false} AggregateLength(allSchedules: seq<MovieScheduleData>, completions: seq<seq<ShowDay>>)
    ensures |Aggregate(allSchedules, completions)| == |allSchedules| + TotalShows(completions)
    decreases |completions|
  {
    if |completions| > 0 {
      ShowsOfLength(completions[0]);
      AggregateLength(allSchedules + ShowsOf(completions[0]), completions[1..]);
    }
  }

  /** The order in which responses complete changes the buffer's order only:
      the screenings it holds, with multiplicity, are the same. */
  lemma AggregateOrderIndependent(allSchedules: seq<MovieScheduleData>, c1: seq<seq<ShowDay>>, c2: seq<seq<ShowDay>>)
    requires multiset(c1) == multiset(c2)
    ensures multiset(Aggregate(allSchedules, c1)) == multiset(Aggregate(allSchedules, c2))
  {
    AggregateAppends(allSchedules, c1);
    AggregateAppends(allSchedules, c2);
    Seqs.MapPermutation(ShowsOf, c1, c2);
    Seqs.ConcatPermutation(Seqs.Map(ShowsOf, c1), Seqs.Map(ShowsOf, c2));
  }
}
