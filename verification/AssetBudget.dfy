/** The render-wide asset budget: the beat loop of `worker/tasks/render.py` and the deadline checks of the
    searches and generators in `engine/render/asset_sourcer.py`.

    `begun` records every moment at which the code decided to start a download or a paid generation; the
    small API calls are not gated by the budget and only take time. */
module AssetBudget {
  import opened Wrappers
  import opened SafeFetch

  const RENDER_ASSET_BUDGET := 1200.0
  const PEXELS_SEARCH_BUDGET := 900.0
  const WIKI_SEARCH_BUDGET := 240.0
  const VIDEO_DEADLINE := 600.0
  const IMAGE_DEADLINE := 120.0
  const MAX_VIDEO: nat := 250 * 1024 * 1024
  const MAX_IMAGE: nat := 50 * 1024 * 1024

  /** One hit of a search: whether its file is cached and sound, the time that passes before the code gets
      to it, where it is, how the network answers (a second time after a 429), and whether what arrives is
      kept. */
  datatype Hit = Hit(cached: bool, gap: real, link: Url, world: nat -> Hop, again: nat -> Hop, body: Body, kept: bool)

  ghost predicate SoundWorld(world: nat -> Hop) {
    forall k: nat :: world(k).gap >= 0.0 && world(k).took >= 0.0
  }

  ghost predicate Sound(h: Hit) {
    h.gap >= 0.0 && SoundWorld(h.world) && SoundWorld(h.again) && forall c | c in h.body.chunks :: c.took >= 0.0
  }

  /** One call of a generator: whether its file is cached, how long the paid call takes, whether it
      delivers. */
  datatype Generation = Generation(cached: bool, gap: real, took: real, delivers: bool)

  /** Where an exception can leave a beat's resolution: reading the pins, after the searches, or recording
      what was generated and pinned. */
  datatype Fault = NoFault | Reading | Searching | Recording

  /** What the sources hold for one beat, how its resolution fails if it does, and the times that pass
      around it. */
  datatype Beat = Beat(
    index: int, reused: bool, people: seq<seq<Hit>>, videos: seq<Hit>, clip: Generation, still: Generation,
    fault: Fault, entry: real, api: real, exit: real, speech: real)
  {
    /** A beat whose pins are reused only reads. */
    predicate Raises() { fault.Reading? || (!fault.NoFault? && !reused) }
  }

  ghost predicate SoundBeat(b: Beat) {
    && (forall p, h | p in b.people && h in p :: Sound(h)) && (forall h | h in b.videos :: Sound(h))
    && b.clip.gap >= 0.0 && b.clip.took >= 0.0 && b.still.gap >= 0.0 && b.still.took >= 0.0
    && b.entry >= 0.0 && b.api >= 0.0 && b.exit >= 0.0 && b.speech >= 0.0
  }

  /** The budget is spent at this moment. */
  predicate SpentAt(budget: Option<real>, at: real) {
    budget.Some? && budget.value <= at
  }

  // `Open` keeps a definition folded (see `Wrappers`); these do the same, one group of definitions each, so that
  // unfolding one group leaves the others folded.

  predicate Read(o: int) { true }

  predicate Made(o: int) { true }

  predicate Seen(o: int) { true }

  // ---------- What a search can get ----------

  /** How long one search may download, how long and how much one download may take, and whether a 429 is
      answered with one more try. */
  datatype Source = Source(budget: real, each: real, limit: nat, retries: bool)

  const PEOPLE := Source(WIKI_SEARCH_BUDGET, IMAGE_DEADLINE, MAX_IMAGE, true)
  const FOOTAGE := Source(PEXELS_SEARCH_BUDGET, VIDEO_DEADLINE, MAX_VIDEO, false)

  /** What a search may ask for, how redirects are resolved, and the asset budget around it. */
  datatype Realm = Realm(urlOk: Url -> bool, join: (Url, Url) -> Url, budget: Option<real>)
  {
    function Clipped(deadline: real): real {
      if budget.None? then deadline else Earlier(deadline, budget.value)
    }
  }

  /** The response is a success and its body is read whole; folded. */
  ghost predicate Accepts(h: Hop, body: Body, limit: nat, deadline: real, start: real) {
    forall o {:trigger Read(o)} :: Read(o) ==>
      200 <= h.status < 300 && Readable(body, limit, Some(deadline), false, start)
  }

  /** A download of the hit begun at `start` delivers: some hop hands over a response (after a 429 and the
      pause, some hop of the second try), it is accepted, and what arrives is kept; folded. */
  ghost predicate Gets(h: Hit, urlOk: Url -> bool, join: (Url, Url) -> Url, deadline: real, limit: nat, retries: bool,
                       start: real)
  {
    var first := Course(h.link, urlOk, Some(deadline), true, join, h.world, start);
    forall o {:trigger Open(o)} :: Open(o) ==>
      && h.kept
      && (exists n: nat ::
            n <= 3 && first.Fetches(n) && Serves(h, urlOk, join, deadline, limit, retries, start, n))
  }

  /** What becomes of the response that hop `n` of the first try hands over. */
  ghost predicate Serves(h: Hit, urlOk: Url -> bool, join: (Url, Url) -> Url, deadline: real, limit: nat,
                         retries: bool, start: real, n: nat)
  {
    var read := HopStart(h.world, start, n + 1);
    if h.world(n).status == 429 && retries then GetsAgain(h, urlOk, join, deadline, limit, read + 2.0)
    else Accepts(h.world(n), h.body, limit, deadline, read)
  }

  ghost predicate GetsAgain(h: Hit, urlOk: Url -> bool, join: (Url, Url) -> Url, deadline: real, limit: nat,
                            start: real)
  {
    var second := Course(h.link, urlOk, Some(deadline), true, join, h.again, start);
    forall o {:trigger Open(o)} :: Open(o) ==>
      exists n: nat ::
        n <= 3 && second.Fetches(n) && Accepts(h.again(n), h.body, limit, deadline, HopStart(h.again, start, n + 1))
  }

  /** What a call comes to, whatever requests it made; folded. */
  ghost predicate Asked(c: Course, r: Result<Hop, Refusal>, now: real) {
    forall o {:trigger Read(o)} :: Read(o) ==> exists made :: Fetched(c, r, made, now)
  }

  /** A call comes to one hop's response, or to none. */
  lemma Answered(c: Course, r: Result<Hop, Refusal>, now: real) returns (n: nat)
    requires Asked(c, r, now)
    ensures r.Success? ==> n <= 3 && c.Fetches(n) && r.value == c.world(n) && now == HopStart(c.world, c.start, n + 1)
    ensures forall m: nat | m <= 3 && c.Fetches(m) :: r.Success? && m == n
  {
    assert Read(0);
    var made :| Fetched(c, r, made, now);
    n := if made == [] then 0 else |made| - 1;
  }

  lemma FirstTry(h: Hit, urlOk: Url -> bool, join: (Url, Url) -> Url, deadline: real, limit: nat, retries: bool,
                 start: real, r: Result<Hop, Refusal>, now: real)
    requires Asked(Course(h.link, urlOk, Some(deadline), true, join, h.world, start), r, now)
    ensures r.Success? && r.value.status == 429 && retries ==>
              (Gets(h, urlOk, join, deadline, limit, retries, start)
               <==> h.kept && GetsAgain(h, urlOk, join, deadline, limit, now + 2.0))
    ensures !(r.Success? && r.value.status == 429 && retries) ==>
              (Gets(h, urlOk, join, deadline, limit, retries, start)
               <==> h.kept && r.Success? && Accepts(r.value, h.body, limit, deadline, now))
  {
    var n := Answered(Course(h.link, urlOk, Some(deadline), true, join, h.world, start), r, now);
    assert Open(0);
    if r.Success? {
      assert Serves(h, urlOk, join, deadline, limit, retries, start, n)
             <==> if r.value.status == 429 && retries then GetsAgain(h, urlOk, join, deadline, limit, now + 2.0)
                  else Accepts(r.value, h.body, limit, deadline, now);
    }
  }

  lemma SecondTry(h: Hit, urlOk: Url -> bool, join: (Url, Url) -> Url, deadline: real, limit: nat, start: real,
                  r: Result<Hop, Refusal>, now: real)
    requires Asked(Course(h.link, urlOk, Some(deadline), true, join, h.again, start), r, now)
    ensures GetsAgain(h, urlOk, join, deadline, limit, start)
            <==> r.Success? && Accepts(r.value, h.body, limit, deadline, now)
  {
    var n := Answered(Course(h.link, urlOk, Some(deadline), true, join, h.again, start), r, now);
    assert Open(0);
  }

  /** A search that gets to the hit at this moment shows it: it is cached, or there is time and its download
      delivers; folded. */
  ghost predicate Shows(world: Realm, source: Source, deadline: real, h: Hit, at: real) {
    forall o {:trigger Read(o)} :: Read(o) ==>
      h.cached || (at < deadline && Gets(h, world.urlOk, world.join, Earlier(at + source.each, deadline), source.limit,
                                         source.retries, at))
  }

  function FirstCached(hits: seq<Hit>): Option<nat> {
    FirstCachedFrom(hits, 0)
  }

  function FirstCachedFrom(hits: seq<Hit>, k: nat): Option<nat>
    requires k <= |hits|
    decreases |hits| - k
  {
    if k == |hits| then None else if hits[k].cached then Some(k) else FirstCachedFrom(hits, k + 1)
  }

  lemma {:induction false} FirstCachedIs(hits: seq<Hit>, k: nat, picked: Option<nat>)
    requires k <= (if picked.Some? then picked.value else |hits|) <= |hits|
    requires picked.Some? ==> picked.value < |hits| && hits[picked.value].cached
    requires forall n | k <= n < (if picked.Some? then picked.value else |hits|) :: !hits[n].cached
    ensures FirstCachedFrom(hits, k) == picked
    decreases |hits| - k
  {
    if k < |hits| && picked != Some(k) { FirstCachedIs(hits, k + 1, picked); }
  }

  lemma ShowsWhen(world: Realm, source: Source, deadline: real, h: Hit, at: real)
    ensures h.cached ==> Shows(world, source, deadline, h, at)
    ensures !h.cached && at >= deadline ==> !Shows(world, source, deadline, h, at)
    ensures !h.cached && at < deadline ==>
              (Shows(world, source, deadline, h, at)
               <==> Gets(h, world.urlOk, world.join, Earlier(at + source.each, deadline), source.limit, source.retries,
                         at))
  {
    assert Read(0);
  }

  /** A search begun at `from` gets to the hits in order, to hit `n` at `seen[n]`, and picks the first that it
      shows then; folded. */
  ghost predicate Looked(world: Realm, source: Source, hits: seq<Hit>, seen: seq<real>, picked: Option<nat>, from: real,
                         to: real)
  {
    forall o {:trigger Seen(o)} :: Seen(o) ==>
      && |seen| == (if picked.Some? then picked.value + 1 else |hits|) <= |hits|
      && InOrder(hits, seen, from, to)
      && forall n | 0 <= n < |seen| ::
           picked == Some(n) <==> Shows(world, source, world.Clipped(from + source.budget), hits[n], seen[n])
  }

  ghost predicate InOrder(hits: seq<Hit>, seen: seq<real>, from: real, to: real)
    requires |seen| <= |hits|
  {
    && (seen != [] ==> seen[0] == from + hits[0].gap)
    && (forall n | 0 < n < |seen| :: seen[n - 1] + hits[n].gap <= seen[n])
    && (forall n | 0 <= n < |seen| :: from <= seen[n] <= to)
  }

  /** The loop before the next hit: none so far was shown; folded. */
  ghost predicate Looking(world: Realm, source: Source, deadline: real, hits: seq<Hit>, seen: seq<real>, from: real,
                          now: real)
  {
    forall o {:trigger Seen(o)} :: Seen(o) ==>
      && deadline == world.Clipped(from + source.budget) && from <= now && (seen == [] ==> now == from)
      && |seen| <= |hits| && InOrder(hits, seen, from, now)
      && forall n | 0 <= n < |seen| :: !Shows(world, source, deadline, hits[n], seen[n])
  }

  lemma LooksFirst(world: Realm, source: Source, deadline: real, hits: seq<Hit>, from: real)
    requires deadline == world.Clipped(from + source.budget)
    ensures Looking(world, source, deadline, hits, [], from, from)
  {
  }

  lemma LooksOn(world: Realm, source: Source, deadline: real, hits: seq<Hit>, seen: seq<real>, from: real, now: real,
                k: nat, at: real, later: real, got: bool)
    requires Looking(world, source, deadline, hits, seen, from, now) && k == |seen| < |hits| && 0.0 <= hits[k].gap
    requires at == now + hits[k].gap <= later && (got <==> Shows(world, source, deadline, hits[k], at))
    ensures got ==> Looked(world, source, hits, seen + [at], Some(k), from, later)
    ensures !got ==> Looking(world, source, deadline, hits, seen + [at], from, later)
  {
    assert Seen(0);
  }

  lemma LookedAtAll(world: Realm, source: Source, deadline: real, hits: seq<Hit>, seen: seq<real>, from: real,
                    now: real)
    requires Looking(world, source, deadline, hits, seen, from, now) && |seen| == |hits|
    ensures Looked(world, source, hits, seen, None, from, now)
  {
    assert Seen(0);
  }

  // ---------- What a beat can be given ----------

  /** Some search between the two moments got to the hit and showed it, or got to it and did not. */
  ghost predicate SeenAs(world: Realm, source: Source, h: Hit, from: real, to: real, shown: bool) {
    exists begin: real, at: real :: from <= begin <= at <= to && (ShowsIn(world, source, begin, h, at) <==> shown)
  }

  /** The same for a search begun at this moment. */
  ghost predicate ShowsIn(world: Realm, source: Source, begin: real, h: Hit, at: real) {
    Shows(world, source, world.Clipped(begin + source.budget), h, at)
  }

  ghost predicate OneShown(world: Realm, source: Source, hits: seq<Hit>, from: real, to: real) {
    exists h | h in hits :: SeenAs(world, source, h, from, to, true)
  }

  ghost predicate AllMissed(world: Realm, source: Source, hits: seq<Hit>, from: real, to: real) {
    forall h | h in hits :: SeenAs(world, source, h, from, to, false)
  }

  lemma SearchTells(world: Realm, source: Source, hits: seq<Hit>, seen: seq<real>, picked: Option<nat>, from: real,
                    to: real)
    requires Looked(world, source, hits, seen, picked, from, to)
    ensures picked.Some? ==> OneShown(world, source, hits, from, to)
    ensures picked.None? ==> AllMissed(world, source, hits, from, to)
  {
    assert Seen(0);
    if picked.Some? {
      assert SeenAs(world, source, hits[picked.value], from, to, true) by {
        assert from <= seen[picked.value] <= to && ShowsIn(world, source, from, hits[picked.value], seen[picked.value]);
      }
    } else {
      forall h | h in hits
        ensures SeenAs(world, source, h, from, to, false)
      {
        var n :| 0 <= n < |hits| && hits[n] == h;
        assert from <= seen[n] <= to && !ShowsIn(world, source, from, h, seen[n]);
      }
    }
  }

  lemma SeenWithin(world: Realm, source: Source, h: Hit, from: real, to: real, shown: bool, from': real, to': real)
    requires SeenAs(world, source, h, from, to, shown) && from' <= from && to <= to'
    ensures SeenAs(world, source, h, from', to', shown)
  {
    var begin, at :| from <= begin <= at <= to && (ShowsIn(world, source, begin, h, at) <==> shown);
  }

  lemma ShownWithin(world: Realm, source: Source, hits: seq<Hit>, from: real, to: real, from': real, to': real)
    requires from' <= from && to <= to'
    ensures OneShown(world, source, hits, from, to) ==> OneShown(world, source, hits, from', to')
    ensures AllMissed(world, source, hits, from, to) ==> AllMissed(world, source, hits, from', to')
  {
    forall h, shown | SeenAs(world, source, h, from, to, shown)
      ensures SeenAs(world, source, h, from', to', shown)
    {
      SeenWithin(world, source, h, from, to, shown, from', to');
    }
  }

  /** The first `i` people of a beat: with someone found one of their hits was shown, with nobody found all
      were missed; folded. */
  ghost predicate PeopleTell(world: Realm, people: seq<seq<Hit>>, i: nat, found: nat, from: real, to: real) {
    forall o {:trigger Seen(o)} :: Seen(o) ==>
      && i <= |people|
      && (found > 0 ==> exists n | 0 <= n < i :: OneShown(world, PEOPLE, people[n], from, to))
      && (found == 0 ==> forall n | 0 <= n < i :: AllMissed(world, PEOPLE, people[n], from, to))
  }

  lemma PeopleTellOn(world: Realm, people: seq<seq<Hit>>, i: nat, found: nat, from: real, to: real, begin: real,
                     end: real, seen: seq<real>, picked: Option<nat>)
    requires PeopleTell(world, people, i, found, from, to) && i < |people| && from <= to <= begin <= end
    requires Looked(world, PEOPLE, people[i], seen, picked, begin, end)
    ensures PeopleTell(world, people, i + 1, if picked.Some? then found + 1 else found, from, end)
  {
    assert Seen(0);
    SearchTells(world, PEOPLE, people[i], seen, picked, begin, end);
    ShownWithin(world, PEOPLE, people[i], begin, end, from, end);
    forall n | 0 <= n < i
      ensures OneShown(world, PEOPLE, people[n], from, to) ==> OneShown(world, PEOPLE, people[n], from, end)
      ensures AllMissed(world, PEOPLE, people[n], from, to) ==> AllMissed(world, PEOPLE, people[n], from, end)
    {
      ShownWithin(world, PEOPLE, people[n], from, to, from, end);
    }
  }

  /** A hit of the beat's people or of its footage was shown; folded. */
  ghost predicate Found(world: Realm, b: Beat, from: real, to: real) {
    forall o {:trigger Seen(o)} :: Seen(o) ==>
      || (exists n | 0 <= n < |b.people| :: OneShown(world, PEOPLE, b.people[n], from, to))
      || OneShown(world, FOOTAGE, b.videos, from, to)
  }

  /** Every hit of the beat's people and of its footage was considered and missed; folded. */
  ghost predicate Missed(world: Realm, b: Beat, from: real, to: real) {
    forall o {:trigger Seen(o)} :: Seen(o) ==>
      && (forall n | 0 <= n < |b.people| :: AllMissed(world, PEOPLE, b.people[n], from, to))
      && AllMissed(world, FOOTAGE, b.videos, from, to)
  }

  lemma SearchesTell(world: Realm, b: Beat, found: nat, from: real, mid: real, to: real, seen: seq<real>,
                     picked: Option<nat>)
    requires PeopleTell(world, b.people, |b.people|, found, from, mid) && from <= mid <= to
    requires found == 0 ==> Looked(world, FOOTAGE, b.videos, seen, picked, mid, to)
    ensures found > 0 || picked.Some? ==> Found(world, b, from, to)
    ensures found == 0 && picked.None? ==> Missed(world, b, from, to)
  {
    assert Seen(0);
    if found == 0 {
      SearchTells(world, FOOTAGE, b.videos, seen, picked, mid, to);
      ShownWithin(world, FOOTAGE, b.videos, mid, to, from, to);
    }
    forall n | 0 <= n < |b.people|
      ensures OneShown(world, PEOPLE, b.people[n], from, mid) ==> OneShown(world, PEOPLE, b.people[n], from, to)
      ensures AllMissed(world, PEOPLE, b.people[n], from, mid) ==> AllMissed(world, PEOPLE, b.people[n], from, to)
    {
      ShownWithin(world, PEOPLE, b.people[n], from, mid, from, to);
    }
  }

  lemma TellWithin(world: Realm, b: Beat, from: real, to: real, from': real, to': real)
    requires from' <= from && to <= to'
    ensures Found(world, b, from, to) ==> Found(world, b, from', to')
    ensures Missed(world, b, from, to) ==> Missed(world, b, from', to')
  {
    assert Seen(0);
    ShownWithin(world, FOOTAGE, b.videos, from, to, from', to');
    forall n | 0 <= n < |b.people|
      ensures OneShown(world, PEOPLE, b.people[n], from, to) ==> OneShown(world, PEOPLE, b.people[n], from', to')
      ensures AllMissed(world, PEOPLE, b.people[n], from, to) ==> AllMissed(world, PEOPLE, b.people[n], from', to')
    {
      ShownWithin(world, PEOPLE, b.people[n], from, to, from', to');
    }
  }

  /** What a beat shows came from its pins, from a hit that was to be had, or from a generator that had it
      cached or delivered; and a black frame means that every hit was missed, nothing was cached, and with
      time left at the end no generator delivered. */
  ghost predicate Outcome(world: Realm, b: Beat, from: real, to: real, shown: bool) {
    && (shown ==> b.reused || b.clip.cached || b.clip.delivers || b.still.cached || b.still.delivers
                  || Found(world, b, from, to))
    && (!shown && !b.Raises() ==>
          && !b.reused && !b.clip.cached && !b.still.cached && Missed(world, b, from, to)
          && (!SpentAt(world.budget, to) ==> !b.clip.delivers && !b.still.delivers))
  }

  lemma OutcomeWithin(world: Realm, b: Beat, from: real, to: real, shown: bool, from': real, to': real)
    requires Outcome(world, b, from, to, shown) && from' <= from && to <= to'
    ensures Outcome(world, b, from', to', shown)
  {
    TellWithin(world, b, from, to, from', to');
  }

  // ---------- What is begun ----------

  /** All starts lie between the two moments, and strictly before the deadline. */
  ghost predicate Within(starts: seq<real>, from: real, to: real, deadline: Option<real>) {
    forall k | 0 <= k < |starts| :: from <= starts[k] <= to && (deadline.Some? ==> starts[k] < deadline.value)
  }

  /** What was begun in between, all of it between the two moments and strictly before the deadline; folded. */
  ghost predicate Began(before: seq<real>, after: seq<real>, from: real, to: real, deadline: Option<real>) {
    forall o {:trigger Made(o)} :: Made(o) ==>
      from <= to && before <= after && Within(after[|before|..], from, to, deadline)
  }

  lemma BeganNothing(a: seq<real>, from: real, to: real, deadline: Option<real>)
    requires from <= to
    ensures Began(a, a, from, to, deadline)
  {
  }

  lemma BeganOne(a: seq<real>, from: real, at: real, to: real, deadline: Option<real>)
    requires from <= at <= to && (deadline.Some? ==> at < deadline.value)
    ensures Began(a, a + [at], from, to, deadline)
  {
  }

  lemma BeganOn(a: seq<real>, b: seq<real>, c: seq<real>, from: real, mid: real, later: real, to: real,
                deadline: Option<real>)
    requires Began(a, b, from, mid, deadline) && Began(b, c, later, to, deadline) && mid <= later
    ensures Began(a, c, from, to, deadline)
  {
    assert Made(0);
    assert c[|a|..] == b[|a|..] + c[|b|..];
  }

  lemma StartsBeforeDeadline(starts: seq<real>, from: real, to: real, deadline: Option<real>)
    requires Within(starts, from, to, deadline) && starts != [] && deadline.Some?
    ensures from < deadline.value
  {
    assert starts[0] < deadline.value;
  }

  /** With the deadline behind, nothing was begun. */
  lemma BeganLate(a: seq<real>, b: seq<real>, from: real, to: real, deadline: Option<real>)
    requires Began(a, b, from, to, deadline) && deadline.Some?
    ensures deadline.value <= from ==> a == b
  {
    assert Made(0);
    if b[|a|..] != [] { StartsBeforeDeadline(b[|a|..], from, to, deadline); }
  }

  /** Once the budget is spent, a search begins nothing and picks the first cached hit. */
  lemma SpentSearch(world: Realm, source: Source, hits: seq<Hit>, seen: seq<real>, picked: Option<nat>, from: real,
                    to: real, before: seq<real>, after: seq<real>)
    requires Looked(world, source, hits, seen, picked, from, to) && Began(before, after, from, to, world.budget)
    ensures world.budget.Some? && world.budget.value <= from ==> before == after && picked == FirstCached(hits)
  {
    if world.budget.Some? && world.budget.value <= from {
      BeganLate(before, after, from, to, world.budget);
      assert Seen(0);
      forall n | 0 <= n < |seen|
        ensures picked == Some(n) <==> hits[n].cached
      {
        assert Read(0);
        assert seen[n] >= from >= world.Clipped(from + source.budget);
      }
      FirstCachedIs(hits, 0, picked);
    }
  }

  /** The requests added are to allowed URLs and none is made after the deadline; folded. */
  ghost predicate Properly(before: seq<Request>, after: seq<Request>, urlOk: Url -> bool, deadline: real) {
    forall o {:trigger Made(o)} :: Made(o) ==>
      && before <= after
      && forall k | |before| <= k < |after| :: after[k].at <= deadline && urlOk(after[k].url)
  }

  lemma ProperlyOn(a: seq<Request>, b: seq<Request>, c: seq<Request>, urlOk: Url -> bool, deadline: real)
    requires Properly(a, b, urlOk, deadline) && Properly(b, c, urlOk, deadline)
    ensures Properly(a, c, urlOk, deadline)
  {
    assert Made(0);
    forall k | |a| <= k < |c|
      ensures c[k].at <= deadline && urlOk(c[k].url)
    {
      if k < |b| { assert c[k] == b[k]; }
    }
  }

  class Sourcer {
    const net: Net
    const urlOk: Url -> bool
    const join: (Url, Url) -> Url
    ghost var begun: seq<real>

    constructor (n: Net, ok: Url -> bool, j: (Url, Url) -> Url)
      ensures net == n && begun == []
    {
      net, urlOk, join, begun := n, ok, j, [];
    }

    // ---------- Searches ----------

    /** One call of `open_download`. */
    method Ask(h: Hit, world: nat -> Hop, deadline: real) returns (r: Result<Hop, Refusal>)
      requires SoundWorld(world)
      modifies net`clock, net`requests
      ensures net.clock >= old(net.clock) && Properly(old(net.requests), net.requests, urlOk, deadline)
      ensures Asked(Course(h.link, urlOk, Some(deadline), true, join, world, old(net.clock)), r, net.clock)
    {
      ghost var made;
      r, made := net.OpenDownload(h.link, urlOk, Some(deadline), true, join, world);
    }

    /** `raise_for_status`, the capped read and the checks of what arrived. */
    method Keep(h: Hit, r: Result<Hop, Refusal>, deadline: real, limit: nat) returns (got: bool)
      requires Sound(h)
      modifies net`clock
      ensures net.clock >= old(net.clock)
      ensures got <==> r.Success? && Accepts(r.value, h.body, limit, deadline, old(net.clock)) && h.kept
    {
      assert Read(0);
      if r.Failure? || !(200 <= r.value.status < 300) { return false; }
      var _, end := net.IterCapped(h.body, limit, Some(deadline), false);
      got := end.Complete? && h.kept;
    }

    /** The second try. */
    method TryAgain(h: Hit, deadline: real, limit: nat) returns (got: bool)
      requires Sound(h)
      modifies net`clock, net`requests
      ensures net.clock >= old(net.clock) && Properly(old(net.requests), net.requests, urlOk, deadline)
      ensures got <==> h.kept && GetsAgain(h, urlOk, join, deadline, limit, old(net.clock))
    {
      var r := Ask(h, h.again, deadline);
      SecondTry(h, urlOk, join, deadline, limit, old(net.clock), r, net.clock);
      got := Keep(h, r, deadline, limit);
    }

    /** One download, the decision to start it just taken; a failure of any kind is swallowed. `retries`
        says whether a 429 is answered with one more try after a pause. */
    method Download(h: Hit, deadline: real, limit: nat, retries: bool) returns (got: bool)
      requires Sound(h)
      modifies this`begun, net`clock, net`requests
      ensures begun == old(begun) + [old(net.clock)] && net.clock >= old(net.clock)
      ensures Properly(old(net.requests), net.requests, urlOk, deadline)
      ensures got <==> Gets(h, urlOk, join, deadline, limit, retries, old(net.clock))
    {
      begun := begun + [net.clock];
      var r := Ask(h, h.world, deadline);
      FirstTry(h, urlOk, join, deadline, limit, retries, old(net.clock), r, net.clock);
      if r.Success? && r.value.status == 429 && retries {
        ghost var asked := net.requests;
        net.Wait(2.0);
        got := TryAgain(h, deadline, limit);
        ProperlyOn(old(net.requests), asked, net.requests, urlOk, deadline);
      } else {
        got := Keep(h, r, deadline, limit);
      }
    }

    ghost function Here(): Realm
      reads net`budget
    {
      Realm(urlOk, join, net.budget)
    }

    /** One hit of a search: a cached file is served at any time, and a download is started only before the
        search's deadline. */
    method Consider(h: Hit, source: Source, deadline: real) returns (got: bool)
      requires Sound(h) && (net.budget.Some? ==> deadline <= net.budget.value)
      modifies this`begun, net`clock, net`requests
      ensures net.clock >= old(net.clock) + h.gap
      ensures Began(old(begun), begun, old(net.clock), net.clock, net.budget)
      ensures got <==> Shows(Here(), source, deadline, h, old(net.clock) + h.gap)
    {
      ShowsWhen(Here(), source, deadline, h, net.clock + h.gap);
      net.Wait(h.gap);
      BeganNothing(begun, old(net.clock), net.clock, net.budget);
      if h.cached { return true; }
      if net.clock >= deadline { return false; }
      ghost var at := net.clock;
      got := Download(h, Earlier(net.clock + source.each, deadline), source.limit, source.retries);
      BeganOne(old(begun), old(net.clock), at, net.clock, net.budget);
    }

    /** The hit loop shared by the video search and the image search. */
    method TryHits(hits: seq<Hit>, source: Source) returns (picked: Option<nat>, ghost seen: seq<real>)
      requires source.budget >= 0.0 && forall h | h in hits :: Sound(h)
      modifies this`begun, net`clock, net`requests
      ensures net.clock >= old(net.clock) && Began(old(begun), begun, old(net.clock), net.clock, net.budget)
      ensures Looked(Here(), source, hits, seen, picked, old(net.clock), net.clock)
    {
      ghost var from := net.clock;
      picked, seen := None, [];
      var deadline := net.Clip(net.clock + source.budget);
      LooksFirst(Here(), source, deadline, hits, from);
      BeganNothing(begun, from, from, net.budget);
      for k := 0 to |hits|
        invariant net.clock >= from && Began(old(begun), begun, from, net.clock, net.budget)
        invariant picked.None? && |seen| == k && Looking(Here(), source, deadline, hits, seen, from, net.clock)
      {
        assert hits[k] in hits && hits[k].gap >= 0.0;
        ghost var now, sofar := net.clock, begun;
        var got := Consider(hits[k], source, deadline);
        BeganOn(old(begun), sofar, begun, from, now, now, net.clock, net.budget);
        ghost var at := now + hits[k].gap;
        LooksOn(Here(), source, deadline, hits, seen, from, now, k, at, net.clock, got);
        seen := seen + [at];
        if got { return Some(k), seen; }
      }
      LookedAtAll(Here(), source, deadline, hits, seen, from, net.clock);
    }

    /** A whole search; once the budget is spent, it begins nothing and serves the first cached hit. */
    method Search(hits: seq<Hit>, source: Source) returns (picked: Option<nat>, ghost seen: seq<real>)
      requires source.budget >= 0.0 && forall h | h in hits :: Sound(h)
      modifies this`begun, net`clock, net`requests
      ensures net.clock >= old(net.clock) && Began(old(begun), begun, old(net.clock), net.clock, net.budget)
      ensures Looked(Here(), source, hits, seen, picked, old(net.clock), net.clock)
      ensures old(net.Spent()) ==> begun == old(begun) && picked == FirstCached(hits)
    {
      picked, seen := TryHits(hits, source);
      SpentSearch(Here(), source, hits, seen, picked, old(net.clock), net.clock, old(begun), begun);
    }

    /** `generate` of either generator: a cached file is free, and a paid call is refused once the budget is
        spent. */
    method Generate(g: Generation) returns (got: bool)
      requires g.gap >= 0.0 && g.took >= 0.0
      modifies this`begun, net`clock
      ensures net.clock >= old(net.clock) + g.gap
      ensures Began(old(begun), begun, old(net.clock), net.clock, net.budget)
      ensures got <==> g.cached || (g.delivers && !SpentAt(net.budget, old(net.clock) + g.gap))
      ensures begun == if g.cached || SpentAt(net.budget, old(net.clock) + g.gap) then old(begun)
                       else old(begun) + [old(net.clock) + g.gap]
    {
      net.Wait(g.gap);
      BeganNothing(begun, old(net.clock), net.clock, net.budget);
      if g.cached { return true; }
      if net.Spent() { return false; }
      ghost var at := net.clock;
      begun := begun + [at];
      net.Wait(g.took);
      BeganOne(old(begun), old(net.clock), at, net.clock, net.budget);
      got := g.delivers;
    }

    /** The searches for a beat's people, half a second apart. */
    method SearchPeople(people: seq<seq<Hit>>) returns (found: nat)
      requires forall p, h | p in people && h in p :: Sound(h)
      modifies this`begun, net`clock, net`requests
      ensures net.clock >= old(net.clock) && Began(old(begun), begun, old(net.clock), net.clock, net.budget)
      ensures PeopleTell(Here(), people, |people|, found, old(net.clock), net.clock)
    {
      found := 0;
      ghost var from := net.clock;
      BeganNothing(begun, from, from, net.budget);
      assert PeopleTell(Here(), people, 0, 0, from, from);
      for i := 0 to |people|
        invariant net.clock >= from && Began(old(begun), begun, from, net.clock, net.budget)
        invariant PeopleTell(Here(), people, i, found, from, net.clock)
      {
        assert people[i] in people;
        ghost var sofar, now := begun, net.clock;
        if i > 0 { net.Wait(0.5); }
        ghost var begin := net.clock;
        var picked, seen := Search(people[i], PEOPLE);
        BeganOn(old(begun), sofar, begun, from, now, begin, net.clock, net.budget);
        PeopleTellOn(Here(), people, i, found, from, now, begin, net.clock, seen, picked);
        if picked.Some? { found := found + 1; }
      }
    }

    /** People, then footage. */
    method SearchEither(b: Beat) returns (shown: bool)
      requires SoundBeat(b)
      modifies this`begun, net`clock, net`requests
      ensures net.clock >= old(net.clock) && Began(old(begun), begun, old(net.clock), net.clock, net.budget)
      ensures shown ==> Found(Here(), b, old(net.clock), net.clock)
      ensures !shown ==> Missed(Here(), b, old(net.clock), net.clock)
    {
      var found := SearchPeople(b.people);
      ghost var sofar, now := begun, net.clock;
      if found > 0 {
        SearchesTell(Here(), b, found, old(net.clock), now, now, [], None);
        return true;
      }
      var picked, seen := Search(b.videos, FOOTAGE);
      BeganOn(old(begun), sofar, begun, old(net.clock), now, now, net.clock, net.budget);
      SearchesTell(Here(), b, found, old(net.clock), now, net.clock, seen, picked);
      shown := picked.Some?;
    }

    /** The generators, the last two links of the chain. */
    method GenerateEither(clip: Generation, still: Generation) returns (shown: bool)
      requires clip.gap >= 0.0 && clip.took >= 0.0 && still.gap >= 0.0 && still.took >= 0.0
      modifies this`begun, net`clock
      ensures net.clock >= old(net.clock) && Began(old(begun), begun, old(net.clock), net.clock, net.budget)
      ensures shown ==> clip.cached || clip.delivers || still.cached || still.delivers
      ensures !shown ==> !clip.cached && !still.cached
      ensures !shown && !SpentAt(net.budget, net.clock) ==> !clip.delivers && !still.delivers
    {
      shown := Generate(clip);
      if shown { return; }
      ghost var sofar, now := begun, net.clock;
      shown := Generate(still);
      BeganOn(old(begun), sofar, begun, old(net.clock), now, now, net.clock, net.budget);
    }

    /** `resolve_or_reuse` as far as time is concerned: a beat whose pins are current is served without any
        search; otherwise people, then footage, then a generated clip, then a generated still. Nothing
        shown is a black frame; an exception may leave at any of the beat's steps. */
    method Resolve(b: Beat) returns (shown: bool, raised: bool)
      requires SoundBeat(b)
      modifies this`begun, net`clock, net`requests
      ensures net.clock >= old(net.clock) && Began(old(begun), begun, old(net.clock), net.clock, net.budget)
      ensures raised <==> b.Raises()
      ensures b.reused || b.fault.Reading? ==> begun == old(begun) && shown == !raised
      ensures Outcome(Here(), b, old(net.clock), net.clock, shown)
    {
      BeganNothing(begun, net.clock, net.clock, net.budget);
      if b.fault.Reading? { return false, true; }
      if b.reused { return true, false; }
      net.Wait(b.api);
      ghost var from := net.clock;
      shown := SearchEither(b);
      BeganOn(old(begun), old(begun), begun, old(net.clock), old(net.clock), from, net.clock, net.budget);
      TellWithin(Here(), b, from, net.clock, old(net.clock), net.clock);
      raised := !b.fault.NoFault?;
      if shown || b.fault.Searching? { return; }
      ghost var sofar, now := begun, net.clock;
      shown := GenerateEither(b.clip, b.still);
      BeganOn(old(begun), sofar, begun, old(net.clock), now, now, net.clock, net.budget);
      TellWithin(Here(), b, old(net.clock), now, old(net.clock), net.clock);
    }

    // ---------- The beat loop ----------

    /** One `asset_budget` block of the loop. */
    method ResolveWithin(b: Beat, seconds: real) returns (shown: bool, raised: bool, ghost block: Block)
      requires SoundBeat(b)
      modifies this`begun, net`clock, net`requests, net`budget
      ensures net.budget == old(net.budget)
      ensures begun == old(begun) + block.begun && (raised <==> b.Raises()) && shown == block.shown
      ensures old(net.clock) == block.started && net.clock == block.ended
      ensures RanWithin(Here(), b, block, seconds)
    {
      ghost var started, world := net.clock, Here();
      net.Wait(b.entry);
      ghost var reading := net.clock;
      var token := net.EnterBudget(seconds);
      ghost var inner := Here();
      shown, raised := Resolve(b);
      ghost var done, deadline := net.clock, net.budget.value;
      assert Made(0);
      net.LeaveBudget(token);
      net.Wait(b.exit);
      OutcomeWithin(inner, b, reading, done, shown, reading, net.clock);
      block := Block(started, reading, deadline, begun[|old(begun)|..], net.clock, shown);
    }

    /** The loop of `render_cut`: each beat's resolution gets what is left of the total after the asset time
        of the earlier beats; speech synthesis in between takes whatever it takes. An exception leaves the
        beat's budget block and ends the render; the block restores the outer budget on its way out. */
    method RenderBeats(beats: seq<Beat>)
      returns (black: seq<int>, raised: bool, ghost blocks: seq<Block>, ghost where: seq<nat>)
      requires forall b | b in beats :: SoundBeat(b)
      modifies this`begun, net`clock, net`requests, net`budget
      ensures net.budget == old(net.budget)
      ensures begun == old(begun) + AllBegun(blocks)
      ensures Passed(Here(), beats, blocks, old(net.clock))
      ensures BlackFrames(beats, blocks, where, black)
      ensures raised <==> exists b | b in beats :: b.Raises()
      ensures raised ==>
                && 0 < |blocks| <= |beats| && beats[|blocks| - 1].Raises()
                && forall i | 0 <= i < |blocks| - 1 :: !beats[i].Raises()
      ensures !raised ==> |blocks| == |beats|
    {
      black, raised, blocks, where := [], false, [], [];
      var assetTime := 0.0;
      ghost var start := net.clock;
      for i := 0 to |beats|
        invariant net.budget == old(net.budget) && begun == old(begun) + AllBegun(blocks)
        invariant |blocks| == i && Passed(Here(), beats, blocks, start)
        invariant BlackFrames(beats, blocks, where, black)
        invariant !raised && forall n | 0 <= n < i :: !beats[n].Raises()
        invariant assetTime == AssetTime(blocks, i) && net.clock == NextStart(beats, blocks, start)
      {
        assert beats[i] in beats;
        var started := net.clock;
        var shown;
        ghost var block;
        shown, raised, block := ResolveWithin(beats[i], RENDER_ASSET_BUDGET - assetTime);
        BlockAppended(Here(), beats, blocks, start, block);
        ghost var earlier := blocks;
        blocks := blocks + [block];
        if raised {
          NotBlack(beats, earlier, where, black, block);
          return;
        }
        assetTime := assetTime + (net.clock - started);
        if shown {
          NotBlack(beats, earlier, where, black, block);
        } else {
          Black(beats, earlier, where, black, block);
          black, where := black + [beats[i].index], where + [i];
        }
        net.Wait(beats[i].speech);
      }
    }
  }

  /** One pass of the beat loop: when it started, the block's own clock reading and deadline, what it began,
      when it ended, and whether it found something to show. */
  datatype Block = Block(started: real, reading: real, deadline: real, begun: seq<real>, ended: real, shown: bool)

  /** The black frames are the beats that found nothing and did not raise, in order, and are recorded by the
      beats' own numbers; folded. */
  ghost predicate BlackFrames(beats: seq<Beat>, blocks: seq<Block>, where: seq<nat>, black: seq<int>) {
    forall o {:trigger Read(o)} :: Read(o) ==>
      && |blocks| <= |beats| && (forall i, j | 0 <= i < j < |where| :: where[i] < where[j])
      && (forall i | i in where :: i < |blocks| && !blocks[i].shown && !beats[i].Raises())
      && (forall i: nat | i < |blocks| :: !blocks[i].shown && !beats[i].Raises() ==> i in where)
      && |black| == |where| && forall k | 0 <= k < |where| :: where[k] in where && black[k] == beats[where[k]].index
  }

  lemma NotBlack(beats: seq<Beat>, blocks: seq<Block>, where: seq<nat>, black: seq<int>, b: Block)
    requires BlackFrames(beats, blocks, where, black) && |blocks| < |beats|
    requires b.shown || beats[|blocks|].Raises()
    ensures BlackFrames(beats, blocks + [b], where, black)
  {
    assert Read(0);
  }

  lemma Black(beats: seq<Beat>, blocks: seq<Block>, where: seq<nat>, black: seq<int>, b: Block)
    requires BlackFrames(beats, blocks, where, black) && |blocks| < |beats|
    requires !b.shown && !beats[|blocks|].Raises()
    ensures BlackFrames(beats, blocks + [b], where + [|blocks|], black + [beats[|blocks|].index])
  {
    assert Read(0);
    var more := where + [|blocks|];
    forall i, j | 0 <= i < j < |more|
      ensures more[i] < more[j]
    {
      assert more[i] == where[i] && where[i] in where;
    }
    assert forall i | i in more :: i in where || i == |blocks|;
    assert more[|where|] == |blocks| && forall i | i in where :: i in more;
  }

  /** The block gets these seconds, or what an outer budget leaves of them; what it begins, it begins before
      its deadline, and its outcome is what the sources offered meanwhile. */
  ghost predicate RanWithin(world: Realm, b: Beat, k: Block, seconds: real) {
    && k.reading == k.started + b.entry && k.started <= k.reading <= k.ended
    && k.deadline == world.Clipped(k.reading + seconds)
    && Within(k.begun, k.reading, k.ended, Some(k.deadline))
    && Outcome(Realm(world.urlOk, world.join, Some(k.deadline)), b, k.reading, k.ended, k.shown)
  }

  /** When the next beat starts: right after the speech of the last. */
  function NextStart(beats: seq<Beat>, blocks: seq<Block>, start: real): real
    requires |blocks| <= |beats|
  {
    if blocks == [] then start else blocks[|blocks| - 1].ended + beats[|blocks| - 1].speech
  }

  /** Block `i` started after its predecessor's speech and ran within what the earlier asset time left. */
  ghost predicate Ran(world: Realm, beats: seq<Beat>, blocks: seq<Block>, start: real, i: nat)
    requires i < |blocks| <= |beats|
  {
    && blocks[i].started == NextStart(beats, blocks[..i], start)
    && RanWithin(world, beats[i], blocks[i], RENDER_ASSET_BUDGET - AssetTime(blocks, i))
  }

  /** The blocks so far, one for each beat in order; folded. */
  ghost predicate Passed(world: Realm, beats: seq<Beat>, blocks: seq<Block>, start: real) {
    forall o {:trigger Made(o)} :: Made(o) ==>
      |blocks| <= |beats| && forall i | 0 <= i < |blocks| :: Ran(world, beats, blocks, start, i)
  }

  /** The asset time of the first `i` beats. */
  function AssetTime(blocks: seq<Block>, i: nat): real
    requires i <= |blocks|
  {
    if i == 0 then 0.0 else AssetTime(blocks, i - 1) + (blocks[i - 1].ended - blocks[i - 1].started)
  }

  function AllBegun(blocks: seq<Block>): seq<real> {
    if blocks == [] then [] else AllBegun(blocks[..|blocks| - 1]) + blocks[|blocks| - 1].begun
  }

  lemma {:induction false} AssetTimeOfPrefix(blocks: seq<Block>, b: Block, i: nat)
    requires i <= |blocks|
    ensures AssetTime(blocks + [b], i) == AssetTime(blocks, i)
  {
    if i > 0 {
      AssetTimeOfPrefix(blocks, b, i - 1);
      assert (blocks + [b])[i - 1] == blocks[i - 1];
    }
  }

  lemma BlockAppended(world: Realm, beats: seq<Beat>, blocks: seq<Block>, start: real, b: Block)
    requires Passed(world, beats, blocks, start) && |blocks| < |beats| && b.started == NextStart(beats, blocks, start)
    requires RanWithin(world, beats[|blocks|], b, RENDER_ASSET_BUDGET - AssetTime(blocks, |blocks|))
    ensures Passed(world, beats, blocks + [b], start)
    ensures AssetTime(blocks + [b], |blocks| + 1) == AssetTime(blocks, |blocks|) + (b.ended - b.started)
    ensures AllBegun(blocks + [b]) == AllBegun(blocks) + b.begun
  {
    assert (blocks + [b])[..|blocks|] == blocks;
    AssetTimeOfPrefix(blocks, b, |blocks|);
    AllRan(world, beats, blocks, start, b);
  }

  lemma AllRan(world: Realm, beats: seq<Beat>, blocks: seq<Block>, start: real, b: Block)
    requires Passed(world, beats, blocks, start) && |blocks| < |beats| && b.started == NextStart(beats, blocks, start)
    requires RanWithin(world, beats[|blocks|], b, RENDER_ASSET_BUDGET - AssetTime(blocks, |blocks|))
    ensures Passed(world, beats, blocks + [b], start)
  {
    assert Made(0);
    RanLast(world, beats, blocks, start, b);
    forall i | 0 <= i < |blocks|
      ensures Ran(world, beats, blocks + [b], start, i)
    {
      RanStays(world, beats, blocks, start, b, i);
    }
  }

  lemma RanLast(world: Realm, beats: seq<Beat>, blocks: seq<Block>, start: real, b: Block)
    requires |blocks| < |beats| && b.started == NextStart(beats, blocks, start)
    requires RanWithin(world, beats[|blocks|], b, RENDER_ASSET_BUDGET - AssetTime(blocks, |blocks|))
    ensures Ran(world, beats, blocks + [b], start, |blocks|)
  {
    AssetTimeOfPrefix(blocks, b, |blocks|);
    assert (blocks + [b])[..|blocks|] == blocks && (blocks + [b])[|blocks|] == b;
  }

  lemma RanStays(world: Realm, beats: seq<Beat>, blocks: seq<Block>, start: real, b: Block, i: nat)
    requires i < |blocks| < |beats| && Ran(world, beats, blocks, start, i)
    ensures Ran(world, beats, blocks + [b], start, i)
  {
    AssetTimeOfPrefix(blocks, b, i);
    assert (blocks + [b])[..i] == blocks[..i] && (blocks + [b])[i] == blocks[i];
  }

  // ---------- The whole render ----------

  function SpeechTime(beats: seq<Beat>, i: nat): real
    requires i <= |beats|
  {
    if i == 0 then 0.0 else SpeechTime(beats, i - 1) + beats[i - 1].speech
  }

  /** The time of a render is asset time and speech, nothing else. */
  lemma {:induction false} TimeIsAssetsAndSpeech(world: Realm, beats: seq<Beat>, blocks: seq<Block>, start: real,
                                                 i: nat)
    requires Passed(world, beats, blocks, start) && i <= |blocks| <= |beats|
    ensures NextStart(beats, blocks[..i], start) == start + AssetTime(blocks, i) + SpeechTime(beats, i)
  {
    if i > 0 {
      assert Made(0);
      TimeIsAssetsAndSpeech(world, beats, blocks, start, i - 1);
      assert Ran(world, beats, blocks, start, i - 1);
    }
  }

  lemma {:induction false} AssetTimeRises(world: Realm, beats: seq<Beat>, blocks: seq<Block>, start: real, i: nat,
                                          j: nat)
    requires Passed(world, beats, blocks, start) && i <= j <= |blocks|
    ensures AssetTime(blocks, i) <= AssetTime(blocks, j)
    decreases j
  {
    if i < j {
      assert Made(0);
      AssetTimeRises(world, beats, blocks, start, i, j - 1);
      assert Ran(world, beats, blocks, start, j - 1);
    }
  }

  /** Everything a beat begins, it begins while the asset time so far, counted on from the block's own
      reading, is short of the render's budget. */
  lemma StartMeansTimeLeft(world: Realm, beats: seq<Beat>, blocks: seq<Block>, start: real, j: nat, k: nat)
    requires Passed(world, beats, blocks, start) && j < |blocks| && k < |blocks[j].begun|
    ensures blocks[j].reading <= blocks[j].begun[k] <= blocks[j].ended
    ensures AssetTime(blocks, j) + (blocks[j].begun[k] - blocks[j].reading) < 1200.0
  {
    assert Made(0);
    assert Ran(world, beats, blocks, start, j);
  }

  /** Once the earlier beats have used the budget up, no later beat starts a download or a paid generation,
      however long speech synthesis took in between. */
  lemma NothingBeginsAfterTheBudget(world: Realm, beats: seq<Beat>, blocks: seq<Block>, start: real, i: nat, j: nat)
    requires Passed(world, beats, blocks, start) && i <= j < |blocks| && AssetTime(blocks, i) >= 1200.0
    ensures blocks[j].begun == []
  {
    AssetTimeRises(world, beats, blocks, start, i, j);
    if |blocks[j].begun| > 0 {
      StartMeansTimeLeft(world, beats, blocks, start, j, 0);
    }
  }
}
