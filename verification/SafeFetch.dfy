/** Bounded fetching: the asset budget, the redirect loop and the capped read of
    `engine/render/safe_fetch.py`.

    Time is a real; what the network does, and how long it takes, comes in as arguments. The `requests` log
    keeps every request made and when. */
module SafeFetch {
  import opened Wrappers

  type Url = string

  const MAX_REDIRECTS: nat := 3

  predicate IsRedirect(status: nat) {
    status in {301, 302, 303, 307, 308}
  }

  function Earlier(a: real, b: real): real { if a < b then a else b }

  /** What happens to one hop: the time that passes before its clock reading, whether its host resolves in
      time, whether the exchange raises, whether the watchdog had to close the connection, the response,
      and how long it took. */
  datatype Hop = Hop(gap: real, dnsInTime: bool, raises: bool, fired: bool, status: nat, location: Option<Url>,
                     took: real)

  datatype Request = Request(url: Url, at: real)

  datatype Refusal = TooSlow | NotAllowed | Failed | NoLocation | TooManyRedirects

  // ---------- The capped read ----------

  datatype Chunk = Chunk(bytes: seq<bv8>, took: real)

  datatype Body = Body(encoding: string, declared: Option<int>, chunks: seq<Chunk>)

  datatype ReadEnd = Complete | Encoded | TooBig | Late

  /** The bytes of the first `n` chunks. */
  function Total(chunks: seq<Chunk>, n: nat): nat
    requires n <= |chunks|
  {
    if n == 0 then 0 else Total(chunks, n - 1) + |chunks[n - 1].bytes|
  }

  lemma {:induction false} TotalGrows(chunks: seq<Chunk>, i: nat, j: nat)
    requires i <= j <= |chunks|
    ensures Total(chunks, i) <= Total(chunks, j)
    decreases j
  {
    if i < j { TotalGrows(chunks, i, j - 1); }
  }

  /** When the reading after chunk `k` happens, if reading began at `start`. */
  function ReadAt(chunks: seq<Chunk>, start: real, k: nat): real
    requires k < |chunks|
  {
    (if k == 0 then start else ReadAt(chunks, start, k - 1)) + chunks[k].took
  }

  predicate InTime(chunks: seq<Chunk>, start: real, deadline: Option<real>, k: nat)
    requires k < |chunks|
  {
    deadline.Some? ==> ReadAt(chunks, start, k) <= deadline.value
  }

  class Net {
    /** What `now()` reads. */
    var clock: real
    /** The deadline of the active `asset_budget` block. */
    var budget: Option<real>
    ghost var requests: seq<Request>

    constructor (now: real)
      ensures clock == now && budget.None? && requests == []
    {
      clock, budget, requests := now, None, [];
    }

    // ---------- The asset budget ----------

    /** Entering `asset_budget(seconds)`; the token is what leaving restores. */
    method EnterBudget(seconds: real) returns (token: Option<real>)
      modifies this`budget
      ensures token == old(budget)
      ensures budget.Some? && budget.value <= clock + seconds && (token.Some? ==> budget.value <= token.value)
      ensures budget.value == clock + seconds || budget == token
    {
      var deadline := clock + seconds;
      token := budget;
      budget := Some(if budget.None? then deadline else Earlier(deadline, budget.value));
    }

    method LeaveBudget(token: Option<real>)
      modifies this`budget
      ensures budget == token
    {
      budget := token;
    }

    /** `clip_to_asset_budget`. */
    function Clip(deadline: real): (d: real)
      reads this`budget
      ensures d <= deadline && (budget.Some? ==> d <= budget.value) && (d == deadline || budget == Some(d))
    {
      if budget.None? then deadline else Earlier(deadline, budget.value)
    }

    /** `asset_budget_spent`. */
    predicate Spent()
      reads this
    {
      budget.Some? && clock >= budget.value
    }

    method Wait(seconds: real)
      requires seconds >= 0.0
      modifies this`clock
      ensures clock == old(clock) + seconds
    {
      clock := clock + seconds;
    }

    // ---------- The redirect loop ----------

    /** `open_download`: one request per hop, each checked against the deadline and the caller's `urlOk`
        first. `world` answers hop by hop and `join` is `urljoin`; `made` are the requests made. It succeeds
        exactly when, within four hops, every hop before the last redirects, the last one delivers, and all
        of them are allowed, resolved and in time. */
    method OpenDownload(first: Url, urlOk: Url -> bool, deadline: Option<real>, follow: bool, join: (Url, Url) -> Url,
                        world: nat -> Hop)
      returns (r: Result<Hop, Refusal>, ghost made: seq<Request>)
      requires forall k: nat :: world(k).gap >= 0.0 && world(k).took >= 0.0
      modifies this`clock, this`requests
      ensures clock >= old(clock) && requests == old(requests) + made
      ensures Fetched(Course(first, urlOk, deadline, follow, join, world, old(clock)), r, made, clock)
    {
      ghost var course := Course(first, urlOk, deadline, follow, join, world, clock);
      made := [];
      var url := first;
      Starts(course);
      for hop := 0 to MAX_REDIRECTS + 1
        invariant Underway(course, made, hop, clock, url) && requests == old(requests) + made && clock >= old(clock)
      {
        ghost var here, now := [], clock;
        r, here := OneHop(url, urlOk, deadline, follow, world(hop));
        HopMade(course, made, here, r, hop, now, url, clock);
        Regroup(old(requests), made, here);
        made := made + here;
        if r.Failure? || Delivers(r.value, follow) { return; }
        url := join(url, r.value.location.value);
      }
      r := Failure(TooManyRedirects);
      HopsUsedUp(course, made, clock, url);
    }

    /** One turn of the loop: Success carries a response to hand over or to follow. */
    method OneHop(url: Url, urlOk: Url -> bool, deadline: Option<real>, follow: bool, h: Hop)
      returns (r: Result<Hop, Refusal>, ghost made: seq<Request>)
      requires h.gap >= 0.0 && h.took >= 0.0
      modifies this`clock, this`requests
      ensures clock >= old(clock) && requests == old(requests) + made
      ensures made == [] || (made == [Request(url, old(clock) + h.gap)] && Allowed(made, urlOk, old(clock), deadline))
      ensures made == [] <==> (deadline.Some? && (old(clock) + h.gap > deadline.value || !h.dnsInTime)) || !urlOk(url)
      ensures made != [] ==> clock == old(clock) + h.gap + h.took
      ensures r.Success? ==> r.value == h
      ensures r.Success? <==> made != [] && (Delivers(h, follow) || Redirects(h, follow))
      ensures r.Failure? ==> r.error != TooManyRedirects
    {
      made := [];
      Wait(h.gap);
      if deadline.Some? && clock > deadline.value { return Failure(TooSlow), made; }
      if !urlOk(url) { return Failure(NotAllowed), made; }
      if deadline.Some? && !h.dnsInTime { return Failure(TooSlow), made; }
      made := [Request(url, clock)];
      requests := requests + made;
      Wait(h.took);
      if h.raises { return Failure(if h.fired then TooSlow else Failed), made; }
      if !follow || !IsRedirect(h.status) {
        if h.fired { return Failure(TooSlow), made; }
        return Success(h), made;
      }
      if h.location.None? || h.location.value == "" { return Failure(NoLocation), made; }
      return Success(h), made;
    }

    // ---------- The capped read ----------

    /** `iter_capped`, read to its end: what it yielded, and how it ended. It runs to completion exactly for
        a body it can read: identity-encoded or wanted raw, declaring no more than the limit and holding no
        more, and read in time. */
    method IterCapped(body: Body, limit: nat, deadline: Option<real>, raw: bool)
      returns (yielded: seq<Chunk>, end: ReadEnd)
      requires forall c | c in body.chunks :: c.took >= 0.0
      modifies this`clock
      ensures clock >= old(clock)
      ensures yielded <= body.chunks && Total(body.chunks, |yielded|) <= limit
      ensures forall k | 0 <= k < |yielded| :: InTime(body.chunks, old(clock), deadline, k)
      ensures end.Complete? <==> Readable(body, limit, deadline, raw, old(clock))
      ensures end.Complete? ==> yielded == body.chunks
    {
      yielded := [];
      if !raw && body.encoding !in {"", "identity"} { return yielded, Encoded; }
      if body.declared.Some? && body.declared.value > limit { return yielded, TooBig; }
      var total := 0;
      for k := 0 to |body.chunks|
        invariant |yielded| == k && yielded <= body.chunks && total == Total(body.chunks, k) <= limit
        invariant clock >= old(clock)
        invariant clock == if k == 0 then old(clock) else ReadAt(body.chunks, old(clock), k - 1)
        invariant forall n | 0 <= n < k :: InTime(body.chunks, old(clock), deadline, n)
      {
        var chunk := body.chunks[k];
        assert chunk in body.chunks;
        Wait(chunk.took);
        total := total + |chunk.bytes|;
        if total > limit {
          TotalGrows(body.chunks, k + 1, |body.chunks|);
          return yielded, TooBig;
        }
        if deadline.Some? && clock > deadline.value {
          assert !InTime(body.chunks, old(clock), deadline, k);
          return yielded, Late;
        }
        yielded := yielded + [chunk];
      }
      return body.chunks, Complete;
    }
  }

  ghost predicate Readable(body: Body, limit: nat, deadline: Option<real>, raw: bool, start: real) {
    && (raw || body.encoding in {"", "identity"})
    && (body.declared.Some? ==> body.declared.value <= limit)
    && Total(body.chunks, |body.chunks|) <= limit
    && forall k | 0 <= k < |body.chunks| :: InTime(body.chunks, start, deadline, k)
  }

  /** Every request is to a URL the caller allows, and none begins after the deadline. */
  ghost predicate Allowed(made: seq<Request>, urlOk: Url -> bool, start: real, deadline: Option<real>) {
    forall k | 0 <= k < |made| :: urlOk(made[k].url) && start <= made[k].at
           && (deadline.Some? ==> made[k].at <= deadline.value)
  }

  /** The response is not followed and the connection was not closed under it. */
  predicate Delivers(h: Hop, follow: bool) {
    !h.raises && !h.fired && (!follow || !IsRedirect(h.status))
  }

  /** The response sends the loop on. */
  predicate Redirects(h: Hop, follow: bool) {
    !h.raises && follow && IsRedirect(h.status) && h.location.Some? && h.location.value != ""
  }

  /** When hop `k` begins, if all hops before it were made. */
  function HopStart(world: nat -> Hop, start: real, k: nat): real {
    if k == 0 then start else HopStart(world, start, k - 1) + world(k - 1).gap + world(k - 1).took
  }

  /** One call of `open_download` and the network it meets. */
  datatype Course = Course(first: Url, urlOk: Url -> bool, deadline: Option<real>, follow: bool,
                           join: (Url, Url) -> Url, world: nat -> Hop, start: real)
  {
    /** Hop `k` is allowed, and with a deadline it is in time and its host resolves in time. */
    predicate Clear(k: nat) {
      && urlOk(UrlAt(first, join, world, k))
      && (deadline.Some? ==> HopStart(world, start, k) + world(k).gap <= deadline.value && world(k).dnsInTime)
    }

    predicate GoesOn(k: nat) {
      Clear(k) && Redirects(world(k), follow)
    }

    /** Hop `n` hands over its response: it is clear and delivers, and all before it were clear and redirect. */
    ghost predicate Fetches(n: nat) {
      Clear(n) && Delivers(world(n), follow) && forall k: nat | k < n :: GoesOn(k)
    }

    /** Success hands over the last response made; whichever of the four hops hands one over, that is it; and
        too many redirects means that all four redirected. */
    ghost predicate Decided(r: Result<Hop, Refusal>, made: nat) {
      && (r.Success? <==> made > 0 && Delivers(world(made - 1), follow))
      && (r.Success? ==> r.value == world(made - 1) && Fetches(made - 1))
      && (forall n: nat | n <= 3 && Fetches(n) :: r == Success(world(n)) && made == n + 1)
      && (r == Failure(TooManyRedirects) <==> made == 4 && Redirects(world(3), follow))
    }
  }

  /** The loop before hop `hop`, at this moment and about to ask for this URL: every hop so far was made and
      redirected; folded. */
  ghost predicate Underway(c: Course, made: seq<Request>, hop: nat, now: real, url: Url) {
    forall o {:trigger Open(o)} :: Open(o) ==>
      && |made| == hop && now == HopStart(c.world, c.start, hop) && url == UrlAt(c.first, c.join, c.world, hop)
      && c.start <= now && Allowed(made, c.urlOk, c.start, c.deadline)
      && Chain(made, c.first, c.follow, c.join, c.world) && forall k: nat | k < hop :: c.GoesOn(k)
  }

  lemma Starts(c: Course)
    ensures Underway(c, [], 0, c.start, c.first)
  {
  }

  /** One turn of the loop, as `OneHop` describes it, decides the outcome or leaves the loop underway. */
  lemma HopMade(c: Course, made: seq<Request>, here: seq<Request>, r: Result<Hop, Refusal>, hop: nat, now: real,
                url: Url, later: real)
    requires Underway(c, made, hop, now, url) && hop <= 3 && c.world(hop).gap >= 0.0 && c.world(hop).took >= 0.0
    requires here == [] || here == [Request(url, now + c.world(hop).gap)]
    requires here == [] <==>
               || (c.deadline.Some? && (now + c.world(hop).gap > c.deadline.value || !c.world(hop).dnsInTime))
               || !c.urlOk(url)
    requires here != [] ==> later == now + c.world(hop).gap + c.world(hop).took
    requires r.Success? ==> r.value == c.world(hop)
    requires r.Success? <==> here != [] && (Delivers(c.world(hop), c.follow) || Redirects(c.world(hop), c.follow))
    requires r != Failure(TooManyRedirects)
    ensures r.Failure? || Delivers(c.world(hop), c.follow) ==> Fetched(c, r, made + here, later)
    ensures r.Success? && !Delivers(c.world(hop), c.follow) ==>
              Underway(c, made + here, hop + 1, later, c.join(url, r.value.location.value))
  {
    assert Open(0);
    if hop > 0 { assert c.GoesOn(hop - 1); }
    Extended(made, here, c.urlOk, c.start, c.deadline, c.first, c.follow, c.join, c.world);
    HopDecides(c, r, hop);
  }

  lemma Regroup(a: seq<Request>, b: seq<Request>, c: seq<Request>)
    ensures (a + b) + c == a + (b + c)
  {
  }

  lemma NoneBefore(c: Course, hop: nat, n: nat)
    requires (forall k: nat | k < hop :: c.GoesOn(k)) && n < hop
    ensures !c.Fetches(n)
  {
    assert c.GoesOn(n);
  }

  lemma HopDecides(c: Course, r: Result<Hop, Refusal>, hop: nat)
    requires (forall k: nat | k < hop :: c.GoesOn(k)) && hop <= 3 && r != Failure(TooManyRedirects)
    requires r.Success? ==> r.value == c.world(hop)
    requires r.Success? <==> c.Clear(hop) && (Delivers(c.world(hop), c.follow) || Redirects(c.world(hop), c.follow))
    ensures r.Failure? || Delivers(c.world(hop), c.follow) ==> c.Decided(r, if c.Clear(hop) then hop + 1 else hop)
    ensures r.Success? && !Delivers(c.world(hop), c.follow) ==> c.GoesOn(hop)
  {
    forall n: nat | c.Fetches(n)
      ensures n >= hop && (n > hop ==> c.GoesOn(hop))
    {
      if n < hop { NoneBefore(c, hop, n); }
    }
    if hop > 0 { assert c.GoesOn(hop - 1); }
  }

  lemma HopsUsedUp(c: Course, made: seq<Request>, now: real, url: Url)
    requires Underway(c, made, 4, now, url)
    ensures Fetched(c, Failure(TooManyRedirects), made, now)
  {
    assert Open(0);
    forall n: nat | n <= 3
      ensures !c.Fetches(n)
    {
      NoneBefore(c, 4, n);
    }
    assert c.GoesOn(3);
  }

  /** What a call comes to: which requests it made, what it returns, and when. */
  ghost predicate Fetched(c: Course, r: Result<Hop, Refusal>, made: seq<Request>, now: real) {
    && |made| <= 4 && Allowed(made, c.urlOk, c.start, c.deadline)
    && Chain(made, c.first, c.follow, c.join, c.world)
    && c.Decided(r, |made|) && (r.Success? ==> now == HopStart(c.world, c.start, |made|))
  }

  /** Where hop `k` goes, when every hop before it was redirected. */
  function UrlAt(first: Url, join: (Url, Url) -> Url, world: nat -> Hop, k: nat): Url {
    if k == 0 then first
    else join(UrlAt(first, join, world, k - 1), if world(k - 1).location.Some? then world(k - 1).location.value else "")
  }

  /** The first request is for the URL asked for, and every later one for where the one before it was
      redirected. */
  ghost predicate Chain(made: seq<Request>, first: Url, follow: bool, join: (Url, Url) -> Url, world: nat -> Hop) {
    && (forall k | 0 <= k < |made| :: made[k].url == UrlAt(first, join, world, k))
    && (forall k: nat | k + 1 < |made| :: Redirects(world(k), follow))
  }

  /** So the first request is for the URL asked for, and each later one for where the response before it
      pointed. */
  lemma RequestsFollowRedirects(c: Course, r: Result<Hop, Refusal>, made: seq<Request>, now: real, k: nat)
    requires Fetched(c, r, made, now) && k < |made|
    ensures k == 0 ==> made[k].url == c.first
    ensures k > 0 ==>
              && c.world(k - 1).location.Some?
              && made[k].url == c.join(made[k - 1].url, c.world(k - 1).location.value)
  {
    assert made[k].url == UrlAt(c.first, c.join, c.world, k);
    if k > 0 { assert Redirects(c.world(k - 1), c.follow); }
  }

  lemma Extended(made: seq<Request>, here: seq<Request>, urlOk: Url -> bool, start: real, deadline: Option<real>,
                 first: Url, follow: bool, join: (Url, Url) -> Url, world: nat -> Hop)
    requires Allowed(made, urlOk, start, deadline) && Chain(made, first, follow, join, world)
    requires made != [] ==> Redirects(world(|made| - 1), follow)
    requires here == [] || (|here| == 1 && here[0].url == UrlAt(first, join, world, |made|)
                            && Allowed(here, urlOk, start, deadline))
    ensures Allowed(made + here, urlOk, start, deadline) && Chain(made + here, first, follow, join, world)
  {
    if here == [] {
      assert made + here == made;
    } else {
      var all := made + here;
      forall k | 0 <= k < |all|
        ensures urlOk(all[k].url) && start <= all[k].at && (deadline.Some? ==> all[k].at <= deadline.value)
        ensures all[k].url == UrlAt(first, join, world, k)
      {
        if k < |made| { assert all[k] == made[k]; } else { assert all[k] == here[0]; }
      }
      forall k: nat | k + 1 < |all|
        ensures Redirects(world(k), follow)
      {
        if k + 1 < |made| { assert Redirects(world(k), follow); } else { assert k == |made| - 1; }
      }
    }
  }
}
