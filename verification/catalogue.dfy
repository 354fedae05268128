/** The listing step: the listing response nests films three deep
    (recommendation groups, their sub-layers, each sub-layer's film list) and
    is flattened into one film list, in traversal order, duplicates kept. */
module Catalogue {
  import opened Types
  import Seqs

  /** The film lists of a group's sub-layers, in sub-layer order. */
  function MovieLists(subs: seq<TheatreSubLayer>): seq<seq<MovieData>>
  {
    seq(|subs|, j requires 0 <= j < |subs| => subs[j].theatreMovieList)
  }

  /** All films of one recommendation group, sub-layer after sub-layer. */
  function GroupMovies(group: Recommendation): seq<MovieData>
  {
    Seqs.Concat(MovieLists(group.theatreSubLayerList))
  }

  /** The films of each group, one list per group. */
  function GroupFlats(data: seq<Recommendation>): seq<seq<MovieData>>
  {
    seq(|data|, i requires 0 <= i < |data| => GroupMovies(data[i]))
  }

  /** The flattened catalogue: group after group. */
  function Flatten(data: seq<Recommendation>): seq<MovieData>
  {
    Seqs.Concat(GroupFlats(data))
  }

  /** Every sub-layer's film list, in traversal order (groups first, then
      sub-layers within a group). */
  function AllMovieLists(data: seq<Recommendation>): seq<seq<MovieData>>
  {
    Seqs.Concat(seq(|data|, i requires 0 <= i < |data| => MovieLists(data[i].theatreSubLayerList)))
  }

  /** Number of films held by a list of sub-layers. */
  function SubLayerSize(subs: seq<TheatreSubLayer>): nat
  {
    if |subs| == 0 then 0 else |subs[0].theatreMovieList| + SubLayerSize(subs[1..])
  }

  /** Number of films held by the listing: the sum over every group and every
      sub-layer in it of the length of its film list. */
  function CatalogueSize(data: seq<Recommendation>): nat
  {
    if |data| == 0 then 0 else SubLayerSize(data[0].theatreSubLayerList) + CatalogueSize(data[1..])
  }

  /** The films of a list of sub-layers, with multiplicity. */
  function SubLayerBag(subs: seq<TheatreSubLayer>): multiset<MovieData>
  {
    if |subs| == 0 then multiset{} else multiset(subs[0].theatreMovieList) + SubLayerBag(subs[1..])
  }

  /** The films of the listing, with multiplicity. */
  function CatalogueBag(data: seq<Recommendation>): multiset<MovieData>
  {
    if |data| == 0 then multiset{} else SubLayerBag(data[0].theatreSubLayerList) + CatalogueBag(data[1..])
  }

  /** Where the film list of sub-layer `s` of group `g` begins in the
      flattened catalogue: after every film of the earlier groups and of the
      earlier sub-layers of group `g`. */
  function Position(data: seq<Recommendation>, g: nat, s: nat): nat
    requires g < |data| && s < |data[g].theatreSubLayerList|
  {
    CatalogueSize(data[..g]) + SubLayerSize(data[g].theatreSubLayerList[..s])
  }

  /** The inner callback for one sub-layer: pushes each of its films onto the
      accumulator, in order. */
  method PushFilms(acc: seq<MovieData>, theatreMovieList: seq<MovieData>) returns (r: seq<MovieData>)
    ensures r == acc + theatreMovieList
  {
    r := acc;
    var k := 0;
    while k < |theatreMovieList|
      invariant 0 <= k <= |theatreMovieList|
      invariant r == acc + theatreMovieList[..k]
    {
      assert theatreMovieList[..k + 1] == theatreMovieList[..k] + [theatreMovieList[k]];
      r := r + [theatreMovieList[k]];
      k := k + 1;
    }
    assert theatreMovieList[..k] == theatreMovieList;
  }

  /** Taking one more sub-layer adds its film list behind the films so far. */
  lemma MovieListsSnoc(subs: seq<TheatreSubLayer>, j: nat)
    requires j < |subs|
    ensures Seqs.Concat(MovieLists(subs[..j + 1]))
         == Seqs.Concat(MovieLists(subs[..j])) + subs[j].theatreMovieList
  {
    assert MovieLists(subs[..j + 1]) == MovieLists(subs[..j]) + [subs[j].theatreMovieList];
    Seqs.ConcatSnoc(MovieLists(subs[..j]), subs[j].theatreMovieList);
  }

  /** The reduce callback for one recommendation group: pushes every film of
      every sub-layer onto the accumulator, in order. */
  method PushRecommendation(acc: seq<MovieData>, recommendationItem: Recommendation)
    returns (r: seq<MovieData>)
    ensures r == acc + GroupMovies(recommendationItem)
  {
    r := acc;
    var subs := recommendationItem.theatreSubLayerList;
    var j := 0;
    while j < |subs|
      invariant 0 <= j <= |subs|
      invariant r == acc + Seqs.Concat(MovieLists(subs[..j]))
    {
      r := PushFilms(r, subs[j].theatreMovieList);
      MovieListsSnoc(subs, j);
      j := j + 1;
    }
    assert subs[..j] == subs;
  }

  /** The listing's flattening reduce: starting from an empty accumulator,
      every film of every sub-layer of every group is pushed, in order. */
  method FetchAllMovies(resp: AllMoviesData) returns (allMovies: seq<MovieData>)
    ensures allMovies == Seqs.Concat(AllMovieLists(resp.data))
    ensures |allMovies| == CatalogueSize(resp.data)
    ensures multiset(allMovies) == CatalogueBag(resp.data)
    ensures |resp.data| == 0 ==> allMovies == []
  {
    var acc: seq<MovieData> := [];
    var i := 0;
    while i < |resp.data|
      invariant 0 <= i <= |resp.data|
      invariant acc == Flatten(resp.data[..i])
    {
      acc := PushRecommendation(acc, resp.data[i]);
      assert GroupFlats(resp.data[..i + 1]) == GroupFlats(resp.data[..i]) + [GroupMovies(resp.data[i])];
      Seqs.ConcatSnoc(GroupFlats(resp.data[..i]), GroupMovies(resp.data[i]));
      i := i + 1;
    }
    assert resp.data[..i] == resp.data;
    FlattenTraversal(resp.data);
    FlattenLength(resp.data);
    FlattenBag(resp.data);
    allMovies := acc;
  }

  lemma {:induction false} MovieListsLength(subs: seq<TheatreSubLayer>)
    ensures Seqs.SumLengths(MovieLists(subs)) == SubLayerSize(subs)
    decreases |subs|
  {
    if |subs| > 0 {
      assert MovieLists(subs)[1..] == MovieLists(subs[1..]);
      MovieListsLength(subs[1..]);
    }
  }

  lemma {:induction false} GroupFlatsLength(data: seq<Recommendation>)
    ensures Seqs.SumLengths(GroupFlats(data)) == CatalogueSize(data)
    decreases |data|
  {
    if |data| > 0 {
      assert GroupFlats(data)[1..] == GroupFlats(data[1..]);
      GroupFlatsLength(data[1..]);
      Seqs.ConcatLength(MovieLists(data[0].theatreSubLayerList));
      MovieListsLength(data[0].theatreSubLayerList);
    }
  }

  /** The flattened catalogue holds as many films as all sub-layer lists
      together. */
  lemma FlattenLength(data: seq<Recommendation>)
    ensures |Flatten(data)| == CatalogueSize(data)
  {
    Seqs.ConcatLength(GroupFlats(data));
    GroupFlatsLength(data);
  }

  lemma {:induction false} MovieListsBag(subs: seq<TheatreSubLayer>)
    ensures Seqs.Bag(MovieLists(subs)) == SubLayerBag(subs)
    decreases |subs|
  {
    if |subs| > 0 {
      assert MovieLists(subs)[1..] == MovieLists(subs[1..]);
      MovieListsBag(subs[1..]);
    }
  }

  lemma {:induction false} GroupFlatsBag(data: seq<Recommendation>)
    ensures Seqs.Bag(GroupFlats(data)) == CatalogueBag(data)
    decreases |data|
  {
    if |data| > 0 {
      assert GroupFlats(data)[1..] == GroupFlats(data[1..]);
      GroupFlatsBag(data[1..]);
      Seqs.ConcatBag(MovieLists(data[0].theatreSubLayerList));
      MovieListsBag(data[0].theatreSubLayerList);
    }
  }

  /** Flattening drops and merges nothing: as a multiset the result is the
      union of all sub-layer lists, duplicates included. */
  lemma FlattenBag(data: seq<Recommendation>)
    ensures multiset(Flatten(data)) == CatalogueBag(data)
  {
    Seqs.ConcatBag(GroupFlats(data));
    GroupFlatsBag(data);
  }

  /** Flattening group by group is the same as concatenating every sub-layer
      list in traversal order. */
  lemma FlattenTraversal(data: seq<Recommendation>)
    ensures Flatten(data) == Seqs.Concat(AllMovieLists(data))
  {
    var outer := seq(|data|, i requires 0 <= i < |data| => MovieLists(data[i].theatreSubLayerList));
    Seqs.ConcatConcat(outer, GroupFlats(data));
  }

  /** A film is in the flattened catalogue exactly when some sub-layer of some
      group lists it. */
  lemma FlattenMember(data: seq<Recommendation>, m: MovieData)
    ensures m in Flatten(data) <==>
      exists g, s :: 0 <= g < |data| && 0 <= s < |data[g].theatreSubLayerList|
        && m in data[g].theatreSubLayerList[s].theatreMovieList
  {
    Seqs.ConcatMember(GroupFlats(data), m);
    if m in Flatten(data) {
      var g :| 0 <= g < |data| && m in GroupMovies(data[g]);
      var subs := data[g].theatreSubLayerList;
      Seqs.ConcatMember(MovieLists(subs), m);
      var s :| 0 <= s < |subs| && m in MovieLists(subs)[s];
      assert m in data[g].theatreSubLayerList[s].theatreMovieList;
    }
    if exists g, s :: 0 <= g < |data| && 0 <= s < |data[g].theatreSubLayerList|
        && m in data[g].theatreSubLayerList[s].theatreMovieList {
      var g, s :| 0 <= g < |data| && 0 <= s < |data[g].theatreSubLayerList|
        && m in data[g].theatreSubLayerList[s].theatreMovieList;
      Seqs.ConcatMember(MovieLists(data[g].theatreSubLayerList), m);
      assert m in MovieLists(data[g].theatreSubLayerList)[s];
      assert m in GroupFlats(data)[g];
    }
  }

  /** Position in source terms is the offset of group `g` plus the offset of
      sub-layer `s` within it. */
  lemma PositionAsOffsets(data: seq<Recommendation>, g: nat, s: nat)
    requires g < |data| && s < |data[g].theatreSubLayerList|
    ensures Position(data, g, s)
      == Seqs.Offset(GroupFlats(data), g) + Seqs.Offset(MovieLists(data[g].theatreSubLayerList), s)
  {
    var subs := data[g].theatreSubLayerList;
    assert GroupFlats(data)[..g] == GroupFlats(data[..g]);
    GroupFlatsLength(data[..g]);
    assert MovieLists(subs)[..s] == MovieLists(subs[..s]);
    MovieListsLength(subs[..s]);
  }

  /** The k-th film of sub-layer `s` of group `g` is found in the flattened
      catalogue at Position(data, g, s) + k. */
  lemma FlattenAt(data: seq<Recommendation>, g: nat, s: nat, k: nat)
    requires g < |data| && s < |data[g].theatreSubLayerList|
    requires k < |data[g].theatreSubLayerList[s].theatreMovieList|
    ensures Position(data, g, s) + k < |Flatten(data)|
    ensures Flatten(data)[Position(data, g, s) + k] == data[g].theatreSubLayerList[s].theatreMovieList[k]
  {
    var ml := MovieLists(data[g].theatreSubLayerList);
    PositionAsOffsets(data, g, s);
    Seqs.ConcatIndex(ml, s, k);
    Seqs.ConcatIndex(GroupFlats(data), g, Seqs.Offset(ml, s) + k);
  }

  /** Traversal order is kept: the films of an earlier sub-layer (an earlier
      group, or the same group and an earlier sub-layer) all come before the
      films of a later one. */
  lemma PositionOrder(data: seq<Recommendation>, g: nat, s: nat, g': nat, s': nat)
    requires g < |data| && s < |data[g].theatreSubLayerList|
    requires g' < |data| && s' < |data[g'].theatreSubLayerList|
    requires g < g' || (g == g' && s < s')
    ensures Position(data, g, s) + |data[g].theatreSubLayerList[s].theatreMovieList| <= Position(data, g', s')
  {
    var gf := GroupFlats(data);
    var ml := MovieLists(data[g].theatreSubLayerList);
    PositionAsOffsets(data, g, s);
    PositionAsOffsets(data, g', s');
    if g == g' {
      Seqs.OffsetMonotone(ml, s, s');
    } else {
      Seqs.OffsetMonotone(ml, s, |ml|);
      assert ml[..|ml|] == ml;
      Seqs.ConcatLength(ml);
      Seqs.OffsetMonotone(gf, g, g');
    }
  }
}
