/**
 * Change-window candidates from past usage, for a zone with a fixed offset. Instants and local times are integers in
 * microseconds; local time zero is a Monday midnight. Averages are exact.
 */
module Windows {
  import opened Common
  import opened Ranking

  const SECOND := 1_000_000
  const MINUTE := 60 * SECOND
  const HOUR := 60 * MINUTE
  const DAY := 24 * HOUR
  const WEEK := 7 * DAY

  function Weekday(local: int): int { (local / DAY) % 7 }

  function HourOf(local: int): int { (local % DAY) / HOUR }

  datatype Sample = Sample(at: int, requests: real, errors: real, latency: real)

  /** A weekday and an hour of the day. */
  datatype Key = Key(weekday: int, hour: int)

  datatype Policy = Policy(offset: int, duration: int, notice: int, weekdays: set<int>, hours: set<int>,
                           candidateCount: nat, minimumSamples: nat, fixedDelay: Option<int>)

  /** What the policy's constructor checks; the offset of a zone is in whole seconds. */
  predicate ValidPolicy(p: Policy) {
    && p.offset % SECOND == 0 && p.duration > 0 && p.notice >= 0
    && 1 <= p.candidateCount <= 10 && p.minimumSamples >= 1
    && p.weekdays != {} && (forall d :: d in p.weekdays ==> 0 <= d < 7)
    && p.hours != {} && (forall h :: h in p.hours ==> 0 <= h < 24)
    && (p.fixedDelay.Some? ==> 1 <= p.fixedDelay.value <= 1440)
  }

  /** `key` is the profile of the candidate; the fixed-delay branch has none and its key means nothing. */
  datatype Candidate = Candidate(startsAt: int, endsAt: int, key: Key, samples: nat, requests: real, errors: real,
                                 latency: real, rank: nat)

  datatype WindowError = NoSamples | NoProfile

  function KeyOf(s: Sample, p: Policy): Key { Key(Weekday(s.at + p.offset), HourOf(s.at + p.offset)) }

  predicate Allowed(k: Key, p: Policy) { k.weekday in p.weekdays && k.hour in p.hours }

  /** The samples that fall in the weekday and hour of a key, in the order given. */
  function Profile(samples: seq<Sample>, p: Policy, k: Key): seq<Sample> {
    if samples == [] then []
    else
      var last := samples[|samples| - 1];
      Profile(samples[..|samples| - 1], p, k) + (if KeyOf(last, p) == k then [last] else [])
  }

  function Total(samples: seq<Sample>, f: Sample -> real): real {
    if samples == [] then 0.0 else Total(samples[..|samples| - 1], f) + f(samples[|samples| - 1])
  }

  function Mean(samples: seq<Sample>, f: Sample -> real): real
    requires samples != []
  {
    Total(samples, f) / |samples| as real
  }

  function Requests(): Sample -> real { (s: Sample) => s.requests }
  function Errors(): Sample -> real { (s: Sample) => s.errors }
  function Latency(): Sample -> real { (s: Sample) => s.latency }

  predicate Eligible(samples: seq<Sample>, p: Policy, k: Key) {
    Allowed(k, p) && |Profile(samples, p, k)| >= p.minimumSamples
  }

  /** A ranked profile: its averages and its key. */
  datatype Profiled = Profiled(requests: real, errors: real, latency: real, key: Key)

  function Averages(profile: seq<Sample>, k: Key): Profiled
    requires profile != []
  {
    Profiled(Mean(profile, Requests()), Mean(profile, Errors()), Mean(profile, Latency()), k)
  }

  /** The lexicographic order the profiles are ranked by. */
  predicate NoWorse(a: Profiled, b: Profiled) {
    a.requests < b.requests || (a.requests == b.requests &&
    (a.errors < b.errors || (a.errors == b.errors &&
    (a.latency < b.latency || (a.latency == b.latency &&
    (a.key.weekday < b.key.weekday || (a.key.weekday == b.key.weekday && a.key.hour <= b.key.hour)))))))
  }

  lemma NoWorseIsTotal()
    ensures TotalOrder(NoWorse)
  {
  }

  // ----- The start of one candidate -----

  /** A local start the key allows: its weekday, its hour, and nothing past the hour. */
  predicate OnKey(local: int, k: Key) {
    Weekday(local) == k.weekday && HourOf(local) == k.hour && (local % DAY) % HOUR == 0
  }

  function StartFor(earliest: int, k: Key): int {
    var days := (k.weekday - Weekday(earliest)) % 7;
    var start := (earliest / DAY) * DAY + k.hour * HOUR + days * DAY;
    if start < earliest then start + WEEK else start
  }

  lemma OfDay(day: int, time: int)
    requires 0 <= time < DAY
    ensures (day * DAY + time) / DAY == day && (day * DAY + time) % DAY == time
  {
  }

  lemma OfHour(hour: int)
    requires 0 <= hour < 24
    ensures hour * HOUR / HOUR == hour && hour * HOUR % HOUR == 0 && 0 <= hour * HOUR < DAY
  {
  }

  lemma OnKeyIff(local: int, k: Key)
    requires 0 <= k.hour < 24
    ensures OnKey(local, k) <==> (local / DAY) % 7 == k.weekday && local == (local / DAY) * DAY + k.hour * HOUR
  {
    hide OnKey;
    var day, time := local / DAY, local % DAY;
    OfHour(k.hour);
    OnKeyParts(local, k);
    assert local == day * DAY + time;
    assert time == (time / HOUR) * HOUR + time % HOUR;
  }

  lemma OnKeyParts(local: int, k: Key)
    ensures OnKey(local, k) <==> (local / DAY) % 7 == k.weekday && (local % DAY) / HOUR == k.hour && (local % DAY) % HOUR == 0
  {
  }

  /** The next day with the weekday, and that no earlier one has it. */
  lemma NextWeekday(from: int, day: int, weekday: int)
    requires 0 <= weekday < 7 && day >= from && day % 7 == weekday
    ensures var first := from + (weekday - from % 7) % 7;
            day == first || day >= first + 7
  {
  }

  lemma WeekdayHit(from: int, weekday: int)
    requires 0 <= weekday < 7
    ensures (from + (weekday - from % 7) % 7) % 7 == weekday
    ensures (from + (weekday - from % 7) % 7 + 7) % 7 == weekday
    ensures 0 <= (weekday - from % 7) % 7 < 7
  {
  }

  function FirstDay(earliest: int, k: Key): int {
    earliest / DAY + (k.weekday - (earliest / DAY) % 7) % 7
  }

  /** The start falls on the first day with the weekday, or a week later when the hour has passed on that day. */
  lemma StartDay(earliest: int, k: Key)
    requires 0 <= k.weekday < 7 && 0 <= k.hour < 24
    ensures var first := FirstDay(earliest, k);
            && first % 7 == (first + 7) % 7 == k.weekday
            && first >= earliest / DAY
            && StartFor(earliest, k) ==
                 (if first * DAY + k.hour * HOUR < earliest then first + 7 else first) * DAY + k.hour * HOUR
  {
    WeekdayHit(earliest / DAY, k.weekday);
  }

  lemma StartIsOnKey(day: int, k: Key)
    requires 0 <= k.hour < 24 && day % 7 == k.weekday
    ensures OnKey(day * DAY + k.hour * HOUR, k)
  {
    hide OnKey;
    OfHour(k.hour);
    OfDay(day, k.hour * HOUR);
    OnKeyIff(day * DAY + k.hour * HOUR, k);
  }

  lemma NoEarlier(earliest: int, local: int, k: Key)
    requires 0 <= k.weekday < 7 && 0 <= k.hour < 24 && local >= earliest && OnKey(local, k)
    ensures local >= StartFor(earliest, k)
  {
    hide OnKey, StartFor;
    OfHour(k.hour);
    OnKeyIff(local, k);
    StartDay(earliest, k);
    NextWeekday(earliest / DAY, local / DAY, k.weekday);
  }

  /** The candidate starts at the least local time, not before the notice is over, that the key allows. */
  lemma EarliestStart(earliest: int, k: Key)
    requires 0 <= k.weekday < 7 && 0 <= k.hour < 24
    ensures StartFor(earliest, k) >= earliest && OnKey(StartFor(earliest, k), k)
    ensures forall local :: local >= earliest && OnKey(local, k) ==> local >= StartFor(earliest, k)
  {
    hide OnKey;
    StartDay(earliest, k);
    OfHour(k.hour);
    var first := FirstDay(earliest, k);
    StartIsOnKey(first, k);
    StartIsOnKey(first + 7, k);
    forall local | local >= earliest && OnKey(local, k) ensures local >= StartFor(earliest, k) {
      NoEarlier(earliest, local, k);
    }
  }

  /** The weekday and hour of a week's local time, read off the time since the week began. */
  lemma KeyInWeek(local: int, k: Key)
    requires 0 <= k.weekday < 7 && 0 <= k.hour < 24
    ensures Weekday(local) == k.weekday && HourOf(local) == k.hour <==>
              k.weekday * DAY + k.hour * HOUR <= local % WEEK < k.weekday * DAY + k.hour * HOUR + HOUR
  {
    var time := WeekParts(local, k.hour);
    hide Weekday, HourOf;
    InOrder(Weekday(local), time, k);
  }

  lemma WeekParts(local: int, hour: int) returns (time: int)
    ensures local % WEEK == Weekday(local) * DAY + time && 0 <= Weekday(local) < 7 && 0 <= time < DAY
    ensures HourOf(local) == hour <==> hour * HOUR <= time < hour * HOUR + HOUR
  {
    var day := local / DAY;
    time := local % DAY;
    assert local == (day / 7) * WEEK + ((day % 7) * DAY + time);
    InWeek(day / 7, (day % 7) * DAY + time);
    HoursOfDay(time, hour);
  }

  lemma InOrder(weekday: int, time: int, k: Key)
    requires 0 <= weekday < 7 && 0 <= time < DAY && 0 <= k.hour < 24
    ensures weekday == k.weekday && k.hour * HOUR <= time < k.hour * HOUR + HOUR <==>
              k.weekday * DAY + k.hour * HOUR <= weekday * DAY + time < k.weekday * DAY + k.hour * HOUR + HOUR
  {
  }

  lemma InWeek(week: int, rest: int)
    requires 0 <= rest < WEEK
    ensures (week * WEEK + rest) % WEEK == rest
  {
  }

  lemma HoursOfDay(time: int, hour: int)
    requires 0 <= time < DAY
    ensures time / HOUR == hour <==> hour * HOUR <= time < hour * HOUR + HOUR
    ensures 0 <= time / HOUR < 24
  {
  }

  /** A sample counts for a start exactly when it was taken within the hour that begins there, some number of weeks away;
      which zone the hours are read in does not matter. */
  lemma SampleOfStart(s: Sample, p: Policy, startsAt: int, k: Key)
    requires 0 <= k.weekday < 7 && 0 <= k.hour < 24 && OnKey(startsAt + p.offset, k)
    ensures KeyOf(s, p) == k <==> (s.at - startsAt) % WEEK < HOUR
  {
    var local, start := s.at + p.offset, startsAt + p.offset;
    KeyInWeek(local, k);
    StartInWeek(start, k);
    hide Weekday, HourOf, OnKey;
    WeekApart(local, start);
  }

  lemma StartInWeek(local: int, k: Key)
    requires 0 <= k.weekday < 7 && 0 <= k.hour < 24 && OnKey(local, k)
    ensures local % WEEK == k.weekday * DAY + k.hour * HOUR
  {
    OnKeyIff(local, k);
    hide OnKey;
    var day := local / DAY;
    OfHour(k.hour);
    assert local == (day / 7) * WEEK + (k.weekday * DAY + k.hour * HOUR);
    InWeek(day / 7, k.weekday * DAY + k.hour * HOUR);
  }

  lemma WeekApart(a: int, b: int)
    requires b % WEEK <= WEEK - HOUR
    ensures (a - b) % WEEK < HOUR <==> b % WEEK <= a % WEEK < b % WEEK + HOUR
  {
    var weeks, apart := a / WEEK - b / WEEK, a % WEEK - b % WEEK;
    assert a - b == weeks * WEEK + apart;
    if apart >= 0 {
      InWeek(weeks, apart);
    } else {
      assert a - b == (weeks - 1) * WEEK + (apart + WEEK);
      InWeek(weeks - 1, apart + WEEK);
    }
  }

  // ----- The candidates -----

  predicate ValidKey(k: Key) { 0 <= k.weekday < 7 && 0 <= k.hour < 24 }

  /** The candidate's facts: its length, its history and its rank. */
  ghost predicate Describes(c: Candidate, samples: seq<Sample>, p: Policy, rank: nat) {
    var profile := Profile(samples, p, c.key);
    && Eligible(samples, p, c.key) && profile != []
    && c.endsAt == c.startsAt + p.duration * MINUTE && c.samples == |profile| && c.rank == rank
    && Profiled(c.requests, c.errors, c.latency, c.key) == Averages(profile, c.key)
  }

  /** Of all instants after the notice with the weekday and hour of the candidate, its start is the first. */
  ghost predicate EarliestLegal(c: Candidate, p: Policy, now: int) {
    && c.startsAt >= now + p.notice * HOUR && OnKey(c.startsAt + p.offset, c.key)
    && forall local :: local >= now + p.notice * HOUR + p.offset && OnKey(local, c.key) ==> c.startsAt + p.offset <= local
  }

  function Rating(c: Candidate): Profiled { Profiled(c.requests, c.errors, c.latency, c.key) }

  /** The best profiles in order, as many as the policy asks for or as there are. */
  ghost predicate Best(cs: seq<Candidate>, samples: seq<Sample>, p: Policy, now: int) {
    && |cs| <= p.candidateCount
    && (forall i :: 0 <= i < |cs| ==> Describes(cs[i], samples, p, i + 1) && EarliestLegal(cs[i], p, now))
    && (forall i, j :: 0 <= i < j < |cs| ==> NoWorse(Rating(cs[i]), Rating(cs[j])) && cs[i].key != cs[j].key)
    && (forall k :: Eligible(samples, p, k) && Profile(samples, p, k) != [] ==>
          Listed(cs, k) || (|cs| == p.candidateCount && AllAhead(cs, Averages(Profile(samples, p, k), k))))
  }

  predicate Listed(cs: seq<Candidate>, k: Key) { exists i :: 0 <= i < |cs| && cs[i].key == k }

  predicate AllAhead(cs: seq<Candidate>, r: Profiled) { forall i :: 0 <= i < |cs| ==> NoWorse(Rating(cs[i]), r) }

  /** Every candidate starts, in local time, on a day and in an hour the policy allows, when the notice is over, and lasts as
      long as the policy says; it rests on enough samples. */
  lemma CandidateIsLegal(cs: seq<Candidate>, samples: seq<Sample>, p: Policy, now: int, i: nat)
    requires ValidPolicy(p) && Best(cs, samples, p, now) && i < |cs|
    ensures var c, local := cs[i], cs[i].startsAt + p.offset;
            && (local / (24 * 60 * 60 * 1_000_000)) % 7 in p.weekdays
            && (local % (24 * 60 * 60 * 1_000_000)) / (60 * 60 * 1_000_000) in p.hours
            && local % (60 * 60 * 1_000_000) == 0
            && c.startsAt >= now + p.notice * (60 * 60 * 1_000_000)
            && c.endsAt == c.startsAt + p.duration * (60 * 1_000_000)
            && c.rank == i + 1 && c.samples >= p.minimumSamples
  {
    assert Describes(cs[i], samples, p, i + 1) && EarliestLegal(cs[i], p, now);
    hide Profile, Averages, NoWorse;
    var local := cs[i].startsAt + p.offset;
    WholeHour(local);
  }

  lemma WholeHour(local: int)
    requires (local % DAY) % HOUR == 0
    ensures local % HOUR == 0
  {
    var day, hour := local / DAY, (local % DAY) / HOUR;
    assert local == (day * 24 + hour) * HOUR;
    WholeHours(day * 24 + hour);
  }

  lemma WholeHours(hours: int)
    ensures (hours * HOUR) % HOUR == 0
  {
  }

  /** Of two candidates the first has fewer requests, then fewer errors, then less latency, then the earlier weekday and
      hour. */
  lemma CandidatesInOrder(cs: seq<Candidate>, samples: seq<Sample>, p: Policy, now: int, i: nat, j: nat)
    requires Best(cs, samples, p, now) && i < j < |cs|
    ensures var a, b := cs[i], cs[j];
            || a.requests < b.requests
            || (a.requests == b.requests && a.errors < b.errors)
            || (a.requests == b.requests && a.errors == b.errors && a.latency < b.latency)
            || (a.requests == b.requests && a.errors == b.errors && a.latency == b.latency
                && (a.key.weekday < b.key.weekday || (a.key.weekday == b.key.weekday && a.key.hour < b.key.hour)))
  {
    hide Describes, EarliestLegal;
  }

  lemma {:induction false} ProfileHas(samples: seq<Sample>, p: Policy, k: Key, s: Sample)
    ensures s in Profile(samples, p, k) <==> s in samples && KeyOf(s, p) == k
  {
    if samples != [] {
      ProfileHas(samples[..|samples| - 1], p, k, s);
      assert samples == samples[..|samples| - 1] + [samples[|samples| - 1]];
    }
  }

  /** What speaks for a candidate is the usage of its starting hour in other weeks, and all of it. */
  lemma SamplesOfCandidate(cs: seq<Candidate>, samples: seq<Sample>, p: Policy, now: int, i: nat, s: Sample)
    requires ValidPolicy(p) && Best(cs, samples, p, now) && i < |cs| && s in samples
    ensures s in Profile(samples, p, cs[i].key) <==> (s.at - cs[i].startsAt) % WEEK < HOUR
  {
    hide Best, ValidPolicy, Profile, KeyOf, OnKey;
    BestOnKey(cs, samples, p, now, i);
    ProfileHas(samples, p, cs[i].key, s);
    SampleOfStart(s, p, cs[i].startsAt, cs[i].key);
  }

  lemma BestOnKey(cs: seq<Candidate>, samples: seq<Sample>, p: Policy, now: int, i: nat)
    requires ValidPolicy(p) && Best(cs, samples, p, now) && i < |cs|
    ensures 0 <= cs[i].key.weekday < 7 && 0 <= cs[i].key.hour < 24 && OnKey(cs[i].startsAt + p.offset, cs[i].key)
  {
    assert Describes(cs[i], samples, p, i + 1) && EarliestLegal(cs[i], p, now);
    hide OnKey, Profile, Averages, NoWorse;
  }

  /** Different candidates start at different instants. */
  lemma StartsDiffer(cs: seq<Candidate>, samples: seq<Sample>, p: Policy, now: int, i: nat, j: nat)
    requires Best(cs, samples, p, now) && i < j < |cs|
    ensures cs[i].startsAt != cs[j].startsAt
  {
    hide Describes, NoWorse;
    assert EarliestLegal(cs[i], p, now) && EarliestLegal(cs[j], p, now);
  }

  ghost predicate Mirrors(profiles: map<Key, seq<Sample>>, order: seq<Key>, samples: seq<Sample>, p: Policy) {
    && Distinct(order)
    && (forall k :: k in profiles <==> k in order)
    && (forall k :: k in profiles <==> Allowed(k, p) && Profile(samples, p, k) != [])
    && (forall k :: k in profiles ==> profiles[k] == Profile(samples, p, k))
  }

  /** The samples by weekday and hour; `order` holds the keys as they were first met. */
  method Profiles(samples: seq<Sample>, p: Policy) returns (profiles: map<Key, seq<Sample>>, order: seq<Key>)
    ensures Mirrors(profiles, order, samples, p)
  {
    profiles, order := map[], [];
    for i := 0 to |samples|
      invariant Mirrors(profiles, order, samples[..i], p)
    {
      var key := KeyOf(samples[i], p);
      assert samples[..i + 1][..i] == samples[..i];
      if Allowed(key, p) {
        if key !in profiles {
          profiles, order := profiles[key := []], order + [key];
        }
        profiles := profiles[key := profiles[key] + [samples[i]]];
      }
    }
    assert samples[..|samples|] == samples;
  }

  /** The eligible profiles, in the order the keys were met. */
  function Rated(profiles: map<Key, seq<Sample>>, order: seq<Key>, minimum: nat): seq<Profiled>
    requires forall k :: k in order ==> k in profiles && profiles[k] != []
  {
    if order == [] then []
    else
      assert order[0] in order;
      var rest := Rated(profiles, order[1..], minimum);
      if |profiles[order[0]]| >= minimum then [Averages(profiles[order[0]], order[0])] + rest else rest
  }

  lemma {:induction false} RatedHas(profiles: map<Key, seq<Sample>>, order: seq<Key>, minimum: nat)
    requires forall k :: k in order ==> k in profiles && profiles[k] != []
    requires Distinct(order)
    ensures var rated := Rated(profiles, order, minimum);
            && Distinct(rated)
            && (forall r :: r in rated ==> r.key in order && |profiles[r.key]| >= minimum && r == Averages(profiles[r.key], r.key))
            && (forall k :: k in order && |profiles[k]| >= minimum ==> Averages(profiles[k], k) in rated)
  {
    if order != [] {
      assert order == [order[0]] + order[1..];
      assert forall k :: k in order[1..] ==> k in order;
      assert order[0] !in order[1..];
      RatedHas(profiles, order[1..], minimum);
    }
  }

  /** The fixed-delay branch: after the delay, cut down to the minute of local time. */
  function FixedStart(now: int, p: Policy): int
    requires p.fixedDelay.Some?
  {
    var local := now + p.offset + p.fixedDelay.value * MINUTE;
    local - local % MINUTE - p.offset
  }

  /** It starts on a whole minute, strictly after now and no later than the delay. */
  lemma FixedStartIsAfterNow(now: int, p: Policy)
    requires ValidPolicy(p) && p.fixedDelay.Some?
    ensures now <= now + (p.fixedDelay.value - 1) * MINUTE < FixedStart(now, p) <= now + p.fixedDelay.value * MINUTE
    ensures (FixedStart(now, p) + p.offset) % MINUTE == 0
  {
    var local := now + p.offset + p.fixedDelay.value * MINUTE;
    assert (local - local % MINUTE) % MINUTE == 0;
  }

  ghost predicate Fixed(c: Candidate, samples: seq<Sample>, p: Policy, now: int)
    requires p.fixedDelay.Some? && samples != []
  {
    && now < c.startsAt <= now + p.fixedDelay.value * MINUTE && (c.startsAt + p.offset) % MINUTE == 0
    && c.startsAt > now + (p.fixedDelay.value - 1) * MINUTE
    && c.endsAt == c.startsAt + p.duration * MINUTE && c.samples == |samples| && c.rank == 1
    && Rating(c) == Averages(samples, c.key)
  }

  /** What the search promises in each of its branches. */
  ghost predicate Promised(r: Result<seq<Candidate>, WindowError>, samples: seq<Sample>, p: Policy, now: int) {
    if samples == [] then r == Err(NoSamples)
    else if p.fixedDelay.Some? then r.Ok? && |r.value| == 1 && Fixed(r.value[0], samples, p, now)
    else if exists k :: Eligible(samples, p, k) && Profile(samples, p, k) != [] then
      r.Ok? && r.value != [] && Best(r.value, samples, p, now)
    else r == Err(NoProfile)
  }

  method FixedCandidate(samples: seq<Sample>, p: Policy, now: int) returns (c: Candidate)
    requires ValidPolicy(p) && p.fixedDelay.Some? && samples != []
    ensures Fixed(c, samples, p, now)
  {
    var start := FixedStart(now, p);
    FixedStartIsAfterNow(now, p);
    var whole := Averages(samples, Key(0, 0));
    c := Candidate(start, start + p.duration * MINUTE, whole.key, |samples|, whole.requests, whole.errors, whole.latency, 1);
  }

  lemma MirrorsHas(samples: seq<Sample>, p: Policy, profiles: map<Key, seq<Sample>>, order: seq<Key>)
    requires Mirrors(profiles, order, samples, p)
    ensures forall k :: k in order ==> k in profiles && profiles[k] != []
  {
  }

  /** The whole search: errors, the fixed-delay branch, or the best profiles at their earliest legal starts. */
  method CandidateWindows(samples: seq<Sample>, p: Policy, now: int) returns (r: Result<seq<Candidate>, WindowError>)
    requires ValidPolicy(p)
    ensures Promised(r, samples, p, now)
  {
    hide Averages, NoWorse, StartFor, OnKey, Best, Mirrors, Ranked, Fixed, Eligible, Profile, Rated, Sort;
    if samples == [] { return Err(NoSamples); }
    if p.fixedDelay.Some? {
      var fixed := FixedCandidate(samples, p, now);
      return Ok([fixed]);
    }
    var profiles, order := Profiles(samples, p);
    assert forall k :: k in order ==> k in profiles && profiles[k] != [] by { MirrorsHas(samples, p, profiles, order); }
    var eligible := Rated(profiles, order, p.minimumSamples);
    RankedIs(samples, p, profiles, order);
    if eligible == [] { return Err(NoProfile); }
    var ranked := Sort(eligible, NoWorse);
    forall i | 0 <= i < |ranked| ensures ranked[i].key in profiles {
      RankedInProfiles(samples, p, profiles, order, ranked, i);
    }
    var candidates := Candidates(ranked, profiles, p, now + p.offset + p.notice * HOUR);
    FirstAreBest(samples, p, now, profiles, order, ranked, candidates);
    r := Ok(candidates);
  }

  /** One candidate for each ranked profile until there are enough. */
  method Candidates(ranked: seq<Profiled>, profiles: map<Key, seq<Sample>>, p: Policy, earliest: int)
    returns (candidates: seq<Candidate>)
    requires p.candidateCount >= 1 && forall i :: 0 <= i < |ranked| ==> ranked[i].key in profiles
    ensures FirstOf(candidates, ranked, profiles, p, earliest)
    ensures |candidates| == if |ranked| < p.candidateCount then |ranked| else p.candidateCount
  {
    hide StartFor;
    candidates := [];
    for i := 0 to |ranked|
      invariant |candidates| == i < p.candidateCount
      invariant FirstOf(candidates, ranked, profiles, p, earliest)
    {
      var key := ranked[i].key;
      var start := StartFor(earliest, key) - p.offset;
      candidates := candidates + [Candidate(start, start + p.duration * MINUTE, key, |profiles[key]|, ranked[i].requests,
                                            ranked[i].errors, ranked[i].latency, i + 1)];
      if |candidates| == p.candidateCount { break; }
    }
  }

  /** The ranking: every eligible profile once, in order. */
  ghost predicate Ranked(ranked: seq<Profiled>, samples: seq<Sample>, p: Policy) {
    && Sorted(ranked, NoWorse) && Distinct(ranked)
    && (forall r :: r in ranked ==> Allowed(r.key, p) && Eligible(samples, p, r.key) && Profile(samples, p, r.key) != []
                                    && r == Averages(Profile(samples, p, r.key), r.key))
    && (forall k :: Eligible(samples, p, k) && Profile(samples, p, k) != [] ==> Averages(Profile(samples, p, k), k) in ranked)
  }

  lemma RankedIs(samples: seq<Sample>, p: Policy, profiles: map<Key, seq<Sample>>, order: seq<Key>)
    requires Mirrors(profiles, order, samples, p)
    ensures Ranked(Sort(Rated(profiles, order, p.minimumSamples), NoWorse), samples, p)
    ensures |Sort(Rated(profiles, order, p.minimumSamples), NoWorse)| == |Rated(profiles, order, p.minimumSamples)|
    ensures Rated(profiles, order, p.minimumSamples) == [] <==>
              !exists k :: Eligible(samples, p, k) && Profile(samples, p, k) != []
  {
    hide Averages, NoWorse, Profile, Rated, Sort;
    var rated := Rated(profiles, order, p.minimumSamples);
    RatedHas(profiles, order, p.minimumSamples);
    NoWorseIsTotal();
    SortSorts(rated, NoWorse);
    SortDistinct(rated, NoWorse);
    if rated != [] { assert rated[0] in rated; }
  }

  lemma RankedInProfiles(samples: seq<Sample>, p: Policy, profiles: map<Key, seq<Sample>>, order: seq<Key>,
                         ranked: seq<Profiled>, i: nat)
    requires Mirrors(profiles, order, samples, p) && Ranked(ranked, samples, p) && i < |ranked|
    ensures ranked[i].key in profiles
  {
    assert ranked[i] in ranked;
  }

  /** The candidates are made from the first profiles of the ranking. */
  ghost predicate FirstOf(cs: seq<Candidate>, ranked: seq<Profiled>, profiles: map<Key, seq<Sample>>, p: Policy, earliest: int) {
    |cs| <= |ranked| && forall i :: 0 <= i < |cs| ==> MadeFrom(cs[i], ranked[i], profiles, p, earliest, i + 1)
  }

  ghost predicate MadeFrom(c: Candidate, r: Profiled, profiles: map<Key, seq<Sample>>, p: Policy, earliest: int, rank: nat) {
    && Rating(c) == r && c.rank == rank
    && c.startsAt + p.offset == StartFor(earliest, r.key) && c.endsAt == c.startsAt + p.duration * MINUTE
    && r.key in profiles && c.samples == |profiles[r.key]|
  }

  lemma FirstAreBest(samples: seq<Sample>, p: Policy, now: int, profiles: map<Key, seq<Sample>>, order: seq<Key>,
                     ranked: seq<Profiled>, cs: seq<Candidate>)
    requires ValidPolicy(p) && Ranked(ranked, samples, p) && Mirrors(profiles, order, samples, p)
    requires FirstOf(cs, ranked, profiles, p, now + p.offset + p.notice * HOUR)
    requires |cs| == if |ranked| < p.candidateCount then |ranked| else p.candidateCount
    ensures Best(cs, samples, p, now)
  {
    hide Averages, NoWorse, StartFor, OnKey, Profile;
    var earliest := now + p.offset + p.notice * HOUR;
    forall i | 0 <= i < |cs| ensures Describes(cs[i], samples, p, i + 1) && EarliestLegal(cs[i], p, now) {
      assert MadeFrom(cs[i], ranked[i], profiles, p, earliest, i + 1) && ranked[i] in ranked;
      EarliestStart(earliest, ranked[i].key);
    }
    forall i, j | 0 <= i < j < |cs| ensures NoWorse(Rating(cs[i]), Rating(cs[j])) && cs[i].key != cs[j].key {
      assert MadeFrom(cs[i], ranked[i], profiles, p, earliest, i + 1) && MadeFrom(cs[j], ranked[j], profiles, p, earliest, j + 1);
      assert ranked[i] in ranked && ranked[j] in ranked && ranked[i] != ranked[j];
    }
    forall k | Eligible(samples, p, k) && Profile(samples, p, k) != []
      ensures Listed(cs, k) || (|cs| == p.candidateCount && AllAhead(cs, Averages(Profile(samples, p, k), k)))
    {
      NotListedIsBehind(samples, p, profiles, ranked, cs, earliest, k);
    }
  }

  lemma NotListedIsBehind(samples: seq<Sample>, p: Policy, profiles: map<Key, seq<Sample>>, ranked: seq<Profiled>,
                          cs: seq<Candidate>, earliest: int, k: Key)
    requires Ranked(ranked, samples, p) && FirstOf(cs, ranked, profiles, p, earliest)
    requires Eligible(samples, p, k) && Profile(samples, p, k) != []
    ensures Listed(cs, k) || (|cs| < |ranked| && AllAhead(cs, Averages(Profile(samples, p, k), k)))
  {
    hide NoWorse, StartFor, Profile, Mean;
    var r := Averages(Profile(samples, p, k), k);
    assert r in ranked;
    var j :| 0 <= j < |ranked| && ranked[j] == r;
    if j < |cs| {
      assert MadeFrom(cs[j], ranked[j], profiles, p, earliest, j + 1);
    } else {
      forall i | 0 <= i < |cs| ensures NoWorse(Rating(cs[i]), r) {
        assert MadeFrom(cs[i], ranked[i], profiles, p, earliest, i + 1);
      }
    }
  }
}
