/** Course recommendations (`GET /api/recommendations/{studentId}`): the
    catalogue courses the student has not joined, scored by how many of
    discipline, domain and level they share with the joined courses, the
    best ten of those scoring at all. */
module Recommendation {
  import opened Common

  /** A catalogue course with the fields the scoring reads; a field the
      document lacks is `None`. */
  datatype CatalogCourse = CatalogCourse(courseId: string, discipline: Option<string>,
                                         domain: Option<string>, level: Option<string>)

  /** A field `course.get(...)` finds truthy: present and not empty. */
  predicate Present(f: Option<string>) {
    f.Some? && f.value != ""
  }

  /** What the joined courses cover: their disciplines, domains and levels. */
  datatype Profile = Profile(disciplines: set<string>, domains: set<string>, levels: set<string>)

  /** The joined courses' metadata: the catalogue courses whose id is one of
      the joined ids. */
  function JoinedProfile(catalogue: seq<CatalogCourse>, joinedIds: seq<string>): (p: Profile)
    ensures forall d :: d in p.disciplines <==>
              exists c :: c in catalogue && c.courseId in joinedIds && Present(c.discipline) && c.discipline.value == d
    ensures forall d :: d in p.domains <==>
              exists c :: c in catalogue && c.courseId in joinedIds && Present(c.domain) && c.domain.value == d
    ensures forall l :: l in p.levels <==>
              exists c :: c in catalogue && c.courseId in joinedIds && Present(c.level) && c.level.value == l
  {
    Profile(set c | c in catalogue && c.courseId in joinedIds && Present(c.discipline) :: c.discipline.value,
            set c | c in catalogue && c.courseId in joinedIds && Present(c.domain) :: c.domain.value,
            set c | c in catalogue && c.courseId in joinedIds && Present(c.level) :: c.level.value)
  }

  /** `$in` of a field in a set: a missing field matches nothing. */
  function Hit(f: Option<string>, s: set<string>): (n: int)
    ensures n == 0 || n == 1
    ensures n == 1 <==> f.Some? && f.value in s
  {
    if f.Some? && f.value in s then 1 else 0
  }

  /** The score: how many of discipline, domain and level are covered. */
  function Score(c: CatalogCourse, p: Profile): (s: int)
    ensures 0 <= s <= 3
    ensures s == 0 <==>
              !(c.discipline.Some? && c.discipline.value in p.disciplines) &&
              !(c.domain.Some? && c.domain.value in p.domains) &&
              !(c.level.Some? && c.level.value in p.levels)
    ensures s == 3 <==>
              (c.discipline.Some? && c.discipline.value in p.disciplines) &&
              (c.domain.Some? && c.domain.value in p.domains) &&
              (c.level.Some? && c.level.value in p.levels)
  {
    Hit(c.discipline, p.disciplines) + Hit(c.domain, p.domains) + Hit(c.level, p.levels)
  }

  /** The two `$match` stages: not joined, and scoring at all. */
  predicate Candidate(c: CatalogCourse, joinedIds: seq<string>, p: Profile) {
    c.courseId !in joinedIds && Score(c, p) > 0
  }

  const Limit: nat := 10

  /** The courses past both `$match` stages, in catalogue order. */
  function Candidates(catalogue: seq<CatalogCourse>, joinedIds: seq<string>, p: Profile): (cs: seq<CatalogCourse>)
    ensures forall c :: c in cs <==> c in catalogue && Candidate(c, joinedIds, p)
    ensures IsSubsequence(cs, catalogue)
  {
    Filter(catalogue, (c: CatalogCourse) => Candidate(c, joinedIds, p))
  }

  /** `$sort` by score, highest first; taken to be stable. */
  function Ranked(cs: seq<CatalogCourse>, p: Profile): (r: seq<CatalogCourse>)
    ensures multiset(r) == multiset(cs)
    ensures forall c :: c in r <==> c in cs
    ensures forall i, j :: 0 <= i < j < |r| ==> Score(r[i], p) >= Score(r[j], p)
  {
    var r := SortBy(cs, (c: CatalogCourse) => 0 - Score(c, p));
    PermutationSameElements(cs, r);
    assert forall i, j :: 0 <= i < j < |r| ==> 0 - Score(r[i], p) <= 0 - Score(r[j], p);
    r
  }

  /** `$limit`: the first ten, or all when there are fewer. */
  function Take(xs: seq<CatalogCourse>, n: nat): (r: seq<CatalogCourse>)
    ensures |r| <= n && (|xs| <= n ==> r == xs) && (|xs| > n ==> r == xs[..n])
    ensures multiset(r) <= multiset(xs)
  {
    if |xs| <= n then xs
    else
      assert xs == xs[..n] + xs[n..];
      xs[..n]
  }

  /** The pipeline: keep the candidates, rank them by score, keep the first
      ten. What is returned was not joined and scores 1 to 3, best first,
      and any candidate left out comes after ten that score at least as
      well. */
  function Recommend(catalogue: seq<CatalogCourse>, joinedIds: seq<string>): (r: seq<CatalogCourse>)
    ensures var p := JoinedProfile(catalogue, joinedIds);
            |r| <= Limit &&
            |r| == (if |Candidates(catalogue, joinedIds, p)| < Limit then |Candidates(catalogue, joinedIds, p)| else Limit) &&
            multiset(r) <= multiset(Candidates(catalogue, joinedIds, p)) &&
            (forall c :: c in r ==> c in catalogue && c.courseId !in joinedIds && 0 < Score(c, p) <= 3) &&
            (forall i, j :: 0 <= i < j < |r| ==> Score(r[i], p) >= Score(r[j], p)) &&
            (forall c :: c in catalogue && Candidate(c, joinedIds, p) && c !in r ==>
               |r| == Limit && forall x :: x in r ==> Score(x, p) >= Score(c, p))
  {
    var p := JoinedProfile(catalogue, joinedIds);
    var cs := Candidates(catalogue, joinedIds, p);
    var ranked := Ranked(cs, p);
    TopTenOfCandidates(catalogue, joinedIds, p, cs, ranked);
    Take(ranked, Limit)
  }

  /** The first ten of a ranking of the candidates are candidates, in
      ranking order, and leave out none that scores better. */
  lemma TopTenOfCandidates(catalogue: seq<CatalogCourse>, joinedIds: seq<string>, p: Profile,
                           cs: seq<CatalogCourse>, ranked: seq<CatalogCourse>)
    requires forall c :: c in cs <==> c in catalogue && Candidate(c, joinedIds, p)
    requires forall c :: c in ranked <==> c in cs
    requires multiset(ranked) == multiset(cs)
    requires forall i, j :: 0 <= i < j < |ranked| ==> Score(ranked[i], p) >= Score(ranked[j], p)
    ensures var r := Take(ranked, Limit);
            |r| <= Limit &&
            |r| == (if |cs| < Limit then |cs| else Limit) &&
            multiset(r) <= multiset(cs) &&
            (forall c :: c in r ==> c in catalogue && c.courseId !in joinedIds && 0 < Score(c, p) <= 3) &&
            (forall i, j :: 0 <= i < j < |r| ==> Score(r[i], p) >= Score(r[j], p)) &&
            (forall c :: c in catalogue && Candidate(c, joinedIds, p) && c !in r ==>
               |r| == Limit && forall x :: x in r ==> Score(x, p) >= Score(c, p))
  {
    var r := Take(ranked, Limit);
    assert |ranked| == |cs| by {
      assert |multiset(ranked)| == |multiset(cs)|;
    }
    TopOfRanked(ranked, p, Limit);
    forall c | c in r ensures c in ranked {
      var k :| 0 <= k < |r| && r[k] == c;
      assert ranked[k] == c;
    }
  }

  /** The first `n` of a ranking score at least as well as anything left
      out. */
  lemma TopOfRanked(ranked: seq<CatalogCourse>, p: Profile, n: nat)
    requires forall i, j :: 0 <= i < j < |ranked| ==> Score(ranked[i], p) >= Score(ranked[j], p)
    ensures forall c :: c in ranked && c !in Take(ranked, n) ==>
              |Take(ranked, n)| == n && forall x :: x in Take(ranked, n) ==> Score(x, p) >= Score(c, p)
  {
    forall c, x | c in ranked && c !in Take(ranked, n) && x in Take(ranked, n)
      ensures Score(x, p) >= Score(c, p)
    {
      var k :| 0 <= k < |ranked| && ranked[k] == c;
      var i :| 0 <= i < |Take(ranked, n)| && Take(ranked, n)[i] == x;
    }
  }

  /** Joined courses are never recommended, whatever the catalogue holds. */
  lemma NoJoinedCourse(catalogue: seq<CatalogCourse>, joinedIds: seq<string>, id: string)
    requires id in joinedIds
    ensures forall c :: c in Recommend(catalogue, joinedIds) ==> c.courseId != id
  {
  }

  /** A student who has joined nothing gets no recommendations: the profile
      is empty, so nothing scores. */
  lemma NothingJoinedNothingRecommended(catalogue: seq<CatalogCourse>)
    ensures Recommend(catalogue, []) == []
  {
    var p := JoinedProfile(catalogue, []);
    assert p.disciplines == {} && p.domains == {} && p.levels == {};
    var cs := Candidates(catalogue, [], p);
    assert forall c :: c !in cs;
    assert multiset(Ranked(cs, p)) == multiset{};
  }
}
