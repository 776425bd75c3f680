/** The IndexedDB wrapper of js/database.js. The three object stores become state: the
    `sessions` store is a map from the auto-incremented key to the stored record (the key
    generator `nextId` starts at 1 and is not reset by `clear()`), the `settings` store a
    map from key to value, and the `statistics` store the single `overall` entry. The
    clock (`Date.now()`, `new Date()`) is the parameter `now`, and ISO date strings are
    modelled by the instant (ms) they denote, so a missing or empty date is None.

    As elsewhere, the store is a value `DbState` with one function per operation, and the
    class `Db` performs the same operations in place. */
module Database {
  import opened JsBase
  import Session

  /** The `limit` getRecentSessions uses when it is called without one. */
  const DefaultRecentLimit: int := 5

  /** A session object as saveSession receives it (the summary of js/session.js, or an
      imported record with its `id` removed). A property that is missing is None. */
  datatype SessionObject = SessionObject(
    routineName: Option<string>,
    date: Option<int>,
    duration: Option<string>,
    durationSeconds: Option<real>,
    score: Option<real>,
    avgBPM: Option<real>,
    steps: Option<real>,
    turns: Option<real>,
    energy: Option<real>,
    postureReadings: seq<real>,
    bpmReadings: seq<real>)

  /** A record of the `sessions` store: its key, the save instant and the object. */
  datatype StoredSession = StoredSession(id: int, timestamp: int, session: SessionObject)

  /** The value of the `overall` statistics entry. */
  datatype Stats = Stats(
    totalSessions: int,
    avgScore: real,
    totalTime: real,
    totalSteps: real,
    totalTurns: real,
    lastUpdated: int)

  datatype DbState<V> = DbState(
    sessions: map<int, StoredSession>,
    nextId: int,
    settings: map<string, V>,
    overall: Option<Stats>)

  /** importData's argument: `sessions` and `settings` as they are found on it, the
      settings as the entries of the object in order. */
  datatype ImportPayload<V> = ImportPayload(
    sessions: Option<seq<SessionObject>>,
    settings: Option<seq<(string, V)>>)

  function Empty<V>(): DbState<V>
  {
    DbState(map[], 1, map[], None)
  }

  /** The key generator's invariant: every key lies below `nextId`, every record carries
      its own key, and every stored object has a date. */
  predicate Valid<V>(st: DbState<V>)
  {
    && st.nextId >= 1
    && forall k :: k in st.sessions ==>
         1 <= k < st.nextId && st.sessions[k].id == k && st.sessions[k].session.date.Some?
  }

  // ---------------------------------------------------------------------------
  // parseDuration

  /** parseDuration(durationStr): 0 for a missing or empty string, otherwise the part
      before the first colon as minutes and the next part as seconds, a part that
      parseInt cannot read (NaN) or that is missing counting as 0. */
  function ParseDuration(durationStr: Option<string>): int
  {
    if durationStr.None? || durationStr.value == "" then 0
    else
      var parts := Split(durationStr.value, ':');
      var minutes := OrZero(ParseInt(parts[0]));
      var seconds := if |parts| > 1 then OrZero(ParseInt(parts[1])) else 0;
      minutes * 60 + seconds
  }

  lemma ParseDurationMissing()
    ensures ParseDuration(None) == 0 && ParseDuration(Some("")) == 0
  {
  }

  /** On "M:SS": minutes times 60 plus seconds, an unreadable part counting as 0. */
  lemma ParseDurationOfParts(m: string, s: string)
    requires forall j :: 0 <= j < |m| ==> m[j] != ':'
    requires forall j :: 0 <= j < |s| ==> s[j] != ':'
    ensures ParseDuration(Some(m + ":" + s)) == OrZero(ParseInt(m)) * 60 + OrZero(ParseInt(s))
  {
    SplitFirst(m, ':', s);
    SplitNoSeparator(s, ':');
    assert m + ":" + s == m + [':'] + s;
  }

  /** A bare number of minutes: the missing seconds part counts as 0. */
  lemma ParseDurationMinutesOnly(m: nat)
    ensures ParseDuration(Some(NatToString(m))) == m * 60
  {
    var t := NatToString(m);
    assert forall j :: 0 <= j < |t| ==> t[j] != ':';
    SplitNoSeparator(t, ':');
    ParseIntOfNatToString(m);
  }

  /** parseDuration reads back what formatDuration of js/session.js writes. */
  lemma ParseFormatRoundTrip(n: nat)
    ensures ParseDuration(Some(Session.FormatDuration(n))) == n
  {
    var mins := NatToString(n / 60);
    var secs := PadStart(NatToString(n % 60), 2, '0');
    assert Session.FormatDuration(n) == mins + ":" + secs;
    NoColonInDigits(mins);
    SecondsTextReadsBack(n % 60);
    ParseDurationOfParts(mins, secs);
    ParseIntOfNatToString(n / 60);
  }

  lemma NoColonInDigits(s: string)
    requires IsDecimalDigits(s)
    ensures forall j :: 0 <= j < |s| ==> s[j] != ':'
  {
  }

  /** The two-place seconds text has no colon and parseInt reads it back. */
  lemma SecondsTextReadsBack(k: nat)
    requires k < 60
    ensures var secs := PadStart(NatToString(k), 2, '0');
      && (forall j :: 0 <= j < |secs| ==> secs[j] != ':')
      && ParseInt(secs) == Some(k)
  {
    var secs := PadStart(NatToString(k), 2, '0');
    Session.TwoDigitSeconds(k);
    if k >= 10 {
      assert secs == NatToString(k);
      ParseIntOfNatToString(k);
    } else {
      assert NatToString(k) == [DigitChar(k)];
      assert secs == "0" + NatToString(k);
      ParseIntOfPaddedDigit(k);
    }
  }

  // ---------------------------------------------------------------------------
  // Listing: getAll in key order, then sort by date, newest first

  /** The records with keys in [lo, hi), in increasing key order (what getAll returns). */
  function KeyOrder(m: map<int, StoredSession>, lo: int, hi: int): seq<StoredSession>
    decreases hi - lo
  {
    if hi <= lo then [] else KeyOrder(m, lo, hi - 1) + (if hi - 1 in m then [m[hi - 1]] else [])
  }

  function DateOf(r: StoredSession): int
  {
    OrZero(r.session.date)
  }

  predicate NewestFirst(rs: seq<StoredSession>)
  {
    forall i, j :: 0 <= i < j < |rs| ==> DateOf(rs[i]) >= DateOf(rs[j])
  }

  /** Places `x` after every element at least as new: the step of a stable sort by the
      comparator `new Date(b.date) - new Date(a.date)`. */
  function InsertByDate(ys: seq<StoredSession>, x: StoredSession): (r: seq<StoredSession>)
    ensures |r| == |ys| + 1
    ensures multiset(r) == multiset(ys) + multiset{x}
  {
    if |ys| == 0 then [x]
    else if DateOf(ys[0]) >= DateOf(x) then
      assert ys == [ys[0]] + ys[1..];
      [ys[0]] + InsertByDate(ys[1..], x)
    else [x] + ys
  }

  /** Array#sort with that comparator, which is stable: records of the same date keep
      their key order. */
  function SortNewestFirst(xs: seq<StoredSession>): (r: seq<StoredSession>)
    ensures |r| == |xs|
    ensures multiset(r) == multiset(xs)
  {
    if |xs| == 0 then []
    else
      assert xs == xs[..|xs| - 1] + [xs[|xs| - 1]];
      InsertByDate(SortNewestFirst(xs[..|xs| - 1]), xs[|xs| - 1])
  }

  lemma {:induction false} InsertKeepsOrder(ys: seq<StoredSession>, x: StoredSession)
    requires NewestFirst(ys)
    ensures NewestFirst(InsertByDate(ys, x))
    decreases |ys|
  {
    if |ys| > 0 && DateOf(ys[0]) >= DateOf(x) {
      var rest := InsertByDate(ys[1..], x);
      InsertKeepsOrder(ys[1..], x);
      HeadBoundsInsert(ys, x);
      var r := InsertByDate(ys, x);
      assert r == [ys[0]] + rest;
      forall i, j | 0 <= i < j < |r|
        ensures DateOf(r[i]) >= DateOf(r[j])
      {
        assert r[j] == rest[j - 1];
        if i > 0 {
          assert r[i] == rest[i - 1];
          assert DateOf(rest[i - 1]) >= DateOf(rest[j - 1]);
        } else {
          assert r[i] == ys[0];
          assert DateOf(ys[0]) >= DateOf(rest[j - 1]);
        }
      }
    }
  }

  /** The newest record of a newest-first listing is at least as new as everything the
      rest becomes once `x`, no newer than it, is inserted. */
  lemma HeadBoundsInsert(ys: seq<StoredSession>, x: StoredSession)
    requires NewestFirst(ys) && |ys| > 0 && DateOf(ys[0]) >= DateOf(x)
    ensures forall j :: 0 <= j < |InsertByDate(ys[1..], x)| ==> DateOf(ys[0]) >= DateOf(InsertByDate(ys[1..], x)[j])
  {
    var rest := InsertByDate(ys[1..], x);
    forall j | 0 <= j < |rest|
      ensures DateOf(ys[0]) >= DateOf(rest[j])
    {
      assert rest[j] in multiset(rest);
      if rest[j] != x {
        assert rest[j] in multiset(ys[1..]);
        var k :| 0 <= k < |ys[1..]| && ys[1..][k] == rest[j];
        assert ys[1 + k] == rest[j];
      }
    }
  }

  lemma {:induction false} SortIsNewestFirst(xs: seq<StoredSession>)
    ensures NewestFirst(SortNewestFirst(xs))
    decreases |xs|
  {
    if |xs| > 0 {
      SortIsNewestFirst(xs[..|xs| - 1]);
      InsertKeepsOrder(SortNewestFirst(xs[..|xs| - 1]), xs[|xs| - 1]);
    }
  }

  /** getAllSessions(). */
  function AllSessions<V>(st: DbState<V>): seq<StoredSession>
  {
    SortNewestFirst(KeyOrder(st.sessions, 1, st.nextId))
  }

  /** The end index of `slice(0, end)`: a negative end counts from the back. */
  function SliceEnd(n: nat, end: int): (e: nat)
    ensures e <= n
  {
    if end < 0 then (if n + end < 0 then 0 else n + end) else if end > n then n else end
  }

  /** getRecentSessions(limit). */
  function RecentSessions<V>(st: DbState<V>, limit: int): seq<StoredSession>
  {
    var all := AllSessions(st);
    all[..SliceEnd(|all|, limit)]
  }

  /** store.get(id): the record, or undefined (None). */
  function SessionById<V>(st: DbState<V>, id: int): Option<StoredSession>
  {
    if id in st.sessions then Some(st.sessions[id]) else None
  }

  lemma {:induction false} KeyOrderMembers(m: map<int, StoredSession>, lo: int, hi: int, r: StoredSession)
    requires forall k :: k in m ==> m[k].id == k
    ensures r in KeyOrder(m, lo, hi) <==> lo <= r.id < hi && r.id in m && m[r.id] == r
    decreases hi - lo
  {
    if hi > lo {
      KeyOrderMembers(m, lo, hi - 1, r);
    }
  }

  lemma {:induction false} KeyOrderLength(m: map<int, StoredSession>, lo: int, hi: int)
    ensures |KeyOrder(m, lo, hi)| == |set k | k in m && lo <= k < hi|
    decreases hi - lo
  {
    if hi <= lo {
      assert (set k | k in m && lo <= k < hi) == {};
    } else {
      KeyOrderLength(m, lo, hi - 1);
      var below := set k | k in m && lo <= k < hi - 1;
      if hi - 1 in m {
        assert (set k | k in m && lo <= k < hi) == below + {hi - 1};
      } else {
        assert (set k | k in m && lo <= k < hi) == below;
      }
    }
  }

  /** Maps that agree on [lo, hi) list the same records. */
  lemma {:induction false} KeyOrderAgree(m: map<int, StoredSession>, m': map<int, StoredSession>, lo: int, hi: int)
    requires forall k :: lo <= k < hi ==> (k in m <==> k in m')
    requires forall k :: lo <= k < hi && k in m ==> m[k] == m'[k]
    ensures KeyOrder(m, lo, hi) == KeyOrder(m', lo, hi)
    decreases hi - lo
  {
    if hi > lo {
      KeyOrderAgree(m, m', lo, hi - 1);
    }
  }

  /** getAllSessions lists every stored record once, newest first. */
  lemma AllSessionsComplete<V>(st: DbState<V>)
    requires Valid(st)
    ensures NewestFirst(AllSessions(st))
    ensures |AllSessions(st)| == |st.sessions|
    ensures forall r :: r in AllSessions(st) <==> r in st.sessions.Values
  {
    var inKeyOrder := KeyOrder(st.sessions, 1, st.nextId);
    SortIsNewestFirst(inKeyOrder);
    ListingLength(st);
    forall r
      ensures r in AllSessions(st) <==> r in st.sessions.Values
    {
      KeyOrderMembers(st.sessions, 1, st.nextId, r);
      assert r in AllSessions(st) <==> r in multiset(AllSessions(st));
      assert r in inKeyOrder <==> r in multiset(inKeyOrder);
      if r in st.sessions.Values {
        var k :| k in st.sessions && st.sessions[k] == r;
        assert r.id == k;
      }
    }
  }

  lemma ListingLength<V>(st: DbState<V>)
    requires Valid(st)
    ensures |AllSessions(st)| == |st.sessions|
  {
    KeyOrderLength(st.sessions, 1, st.nextId);
    assert (set k | k in st.sessions && 1 <= k < st.nextId) == st.sessions.Keys;
    assert |st.sessions.Keys| == |st.sessions|;
  }

  /** getRecentSessions(k) for k >= 0 is the first min(k, n) records of the newest-first
      listing; a negative k leaves out the last -k records. */
  lemma RecentIsPrefix<V>(st: DbState<V>, limit: int)
    ensures var all := AllSessions(st); var r := RecentSessions(st, limit);
      && r == all[..|r|]
      && (limit >= 0 ==> |r| == if limit < |all| then limit else |all|)
      && (limit < 0 ==> |r| == if |all| + limit < 0 then 0 else |all| + limit)
  {
  }

  /** getRecentSessions() without a limit lists the five newest records, or all of them
      when there are fewer. */
  lemma DefaultRecentFive<V>(st: DbState<V>)
    ensures var all := AllSessions(st); var r := RecentSessions(st, DefaultRecentLimit);
      r == if |all| < 5 then all else all[..5]
  {
    RecentIsPrefix(st, DefaultRecentLimit);
  }

  // ---------------------------------------------------------------------------
  // Statistics

  /** `xs.reduce((sum, s) => sum + f(s), 0)`. */
  function SumBy(rs: seq<StoredSession>, f: StoredSession -> real): real
  {
    if |rs| == 0 then 0.0 else SumBy(rs[..|rs| - 1], f) + f(rs[|rs| - 1])
  }

  function ScoreOf(r: StoredSession): real { OrZeroReal(r.session.score) }
  function StepsOf(r: StoredSession): real { OrZeroReal(r.session.steps) }
  function TurnsOf(r: StoredSession): real { OrZeroReal(r.session.turns) }

  /** `s.durationSeconds || this.parseDuration(s.duration)`. */
  function TimeOf(r: StoredSession): real
  {
    if OrZeroReal(r.session.durationSeconds) != 0.0 then r.session.durationSeconds.value
    else ParseDuration(r.session.duration) as real
  }

  /** resetStatistics(): all totals zero. */
  function ZeroStats(now: int): Stats
  {
    Stats(0, 0.0, 0.0, 0.0, 0.0, now)
  }

  /** updateStatistics() over the listing `rs`: zero for no sessions, otherwise the count,
      the unrounded mean score and the sums, a missing number counting as 0. */
  function Statistics(rs: seq<StoredSession>, now: int): Stats
  {
    if |rs| == 0 then ZeroStats(now)
    else
      Stats(|rs|, SumBy(rs, ScoreOf) / (|rs| as real), SumBy(rs, TimeOf), SumBy(rs, StepsOf),
            SumBy(rs, TurnsOf), now)
  }

  lemma {:induction false} SumByAppend(xs: seq<StoredSession>, ys: seq<StoredSession>, f: StoredSession -> real)
    ensures SumBy(xs + ys, f) == SumBy(xs, f) + SumBy(ys, f)
    decreases |ys|
  {
    if |ys| == 0 {
      assert xs + ys == xs;
    } else {
      assert (xs + ys)[..|xs + ys| - 1] == xs + ys[..|ys| - 1];
      SumByAppend(xs, ys[..|ys| - 1], f);
    }
  }

  /** A fold of a sum does not depend on the order of the records. */
  lemma {:induction false} SumByPermutation(xs: seq<StoredSession>, ys: seq<StoredSession>, f: StoredSession -> real)
    requires multiset(xs) == multiset(ys)
    ensures SumBy(xs, f) == SumBy(ys, f)
    decreases |xs|
  {
    if |xs| == 0 {
      assert |ys| == |multiset(ys)| == 0;
    } else {
      var x := xs[|xs| - 1];
      var front := xs[..|xs| - 1];
      assert xs == front + [x];
      assert x in multiset(ys);
      var j :| 0 <= j < |ys| && ys[j] == x;
      var rest := ys[..j] + ys[j + 1..];
      RemoveAt(ys, j, f);
      assert multiset(front) == multiset(xs) - multiset{x};
      SumByPermutation(front, rest, f);
      SumBySnoc(front, x, f);
    }
  }

  /** Taking the j-th record out of a listing takes it out of the multiset and its
      value out of every sum. */
  lemma RemoveAt(ys: seq<StoredSession>, j: int, f: StoredSession -> real)
    requires 0 <= j < |ys|
    ensures multiset(ys[..j] + ys[j + 1..]) == multiset(ys) - multiset{ys[j]}
    ensures SumBy(ys, f) == SumBy(ys[..j] + ys[j + 1..], f) + f(ys[j])
  {
    SplitAt(ys, j);
    MultisetRemoveAt(ys[..j], ys[j], ys[j + 1..]);
    SumByRemoveAt(ys[..j], ys[j], ys[j + 1..], f);
  }

  lemma SplitAt(ys: seq<StoredSession>, j: int)
    requires 0 <= j < |ys|
    ensures ys == ys[..j] + [ys[j]] + ys[j + 1..]
  {
  }

  lemma MultisetRemoveAt(left: seq<StoredSession>, x: StoredSession, right: seq<StoredSession>)
    ensures multiset(left + right) == multiset(left + [x] + right) - multiset{x}
  {
    assert multiset(left + [x] + right) == multiset(left) + multiset{x} + multiset(right);
  }

  lemma SumByRemoveAt(left: seq<StoredSession>, x: StoredSession, right: seq<StoredSession>, f: StoredSession -> real)
    ensures SumBy(left + [x] + right, f) == SumBy(left + right, f) + f(x)
  {
    SumByAppend(left + [x], right, f);
    SumBySnoc(left, x, f);
    SumByAppend(left, right, f);
  }

  lemma SumBySnoc(xs: seq<StoredSession>, x: StoredSession, f: StoredSession -> real)
    ensures SumBy(xs + [x], f) == SumBy(xs, f) + f(x)
  {
    assert (xs + [x])[..|xs|] == xs;
  }

  lemma StatisticsPermutationInvariant(xs: seq<StoredSession>, ys: seq<StoredSession>, now: int)
    requires multiset(xs) == multiset(ys)
    ensures Statistics(xs, now) == Statistics(ys, now)
  {
    assert |xs| == |multiset(xs)| == |ys|;
    SumByPermutation(xs, ys, ScoreOf);
    SumByPermutation(xs, ys, TimeOf);
    SumByPermutation(xs, ys, StepsOf);
    SumByPermutation(xs, ys, TurnsOf);
  }

  /** The statistics of a store: totalSessions is the number of stored records, and an
      empty store has all-zero statistics. */
  lemma StatisticsCount<V>(st: DbState<V>, now: int)
    requires Valid(st)
    ensures var s := Statistics(AllSessions(st), now);
      && s.totalSessions == |st.sessions|
      && (|st.sessions| == 0 ==> s == ZeroStats(now))
      && (|st.sessions| > 0 ==> s.avgScore == SumBy(AllSessions(st), ScoreOf) / (|st.sessions| as real))
  {
    ListingLength(st);
    var all := AllSessions(st);
    StatisticsOfListing(all, now);
    assert |all| as real == |st.sessions| as real;
  }

  /** The statistics of any listing: its length as the count, the unrounded mean score,
      and all zeros for an empty one. */
  lemma StatisticsOfListing(all: seq<StoredSession>, now: int)
    ensures Statistics(all, now).totalSessions == |all| && Statistics(all, now).lastUpdated == now
    ensures |all| == 0 ==> Statistics(all, now) == ZeroStats(now)
    ensures |all| > 0 ==> Statistics(all, now).avgScore == SumBy(all, ScoreOf) / (|all| as real)
  {
  }

  // ---------------------------------------------------------------------------
  // Operations

  /** updateStatistics(): the `overall` entry becomes a full re-scan of the store. */
  function Rescanned<V>(st: DbState<V>, now: int): DbState<V>
  {
    st.(overall := Some(Statistics(AllSessions(st), now)))
  }

  /** `date: sessionData.date || new Date().toISOString()`. */
  function Dated(obj: SessionObject, now: int): SessionObject
  {
    obj.(date := Some(if obj.date.Some? then obj.date.value else now))
  }

  /** saveSession(sessionData): the record under the next key, then updateStatistics.
      The second component is the record saveSession resolves with. */
  function SessionSaved<V>(st: DbState<V>, obj: SessionObject, now: int): (DbState<V>, StoredSession)
  {
    var rec := StoredSession(st.nextId, now, Dated(obj, now));
    (Rescanned(st.(sessions := st.sessions[st.nextId := rec], nextId := st.nextId + 1), now), rec)
  }

  /** deleteSession(id), then updateStatistics (also when there was no such key). */
  function SessionDeleted<V>(st: DbState<V>, id: int, now: int): DbState<V>
  {
    Rescanned(st.(sessions := st.sessions - {id}), now)
  }

  /** clearAllSessions(), then resetStatistics. */
  function SessionsCleared<V>(st: DbState<V>, now: int): DbState<V>
  {
    st.(sessions := map[], overall := Some(ZeroStats(now)))
  }

  /** getStatistics(): the stored entry, or a re-scan stored first when there is none. */
  function StatsRead<V>(st: DbState<V>, now: int): (DbState<V>, Stats)
  {
    if st.overall.Some? then (st, st.overall.value)
    else (Rescanned(st, now), Statistics(AllSessions(st), now))
  }

  function SettingSaved<V>(st: DbState<V>, key: string, value: V): DbState<V>
  {
    st.(settings := st.settings[key := value])
  }

  /** getSetting(key, defaultValue). */
  function SettingOr<V>(st: DbState<V>, key: string, defaultValue: V): V
  {
    if key in st.settings then st.settings[key] else defaultValue
  }

  function SettingDeleted<V>(st: DbState<V>, key: string): DbState<V>
  {
    st.(settings := st.settings - {key})
  }

  /** saveSettings(entries): one saveSetting per entry, in order. */
  function SettingsPut<V>(m: map<string, V>, entries: seq<(string, V)>): map<string, V>
  {
    if |entries| == 0 then m
    else SettingsPut(m, entries[..|entries| - 1])[entries[|entries| - 1].0 := entries[|entries| - 1].1]
  }

  /** clearAllData(): all three stores emptied; the key generator is kept. */
  function AllDataCleared<V>(st: DbState<V>): DbState<V>
  {
    st.(sessions := map[], settings := map[], overall := None)
  }

  /** One saveSession per object, in order. */
  function SessionsSaved<V>(st: DbState<V>, objs: seq<SessionObject>, now: int): DbState<V>
  {
    if |objs| == 0 then st
    else SessionSaved(SessionsSaved(st, objs[..|objs| - 1], now), objs[|objs| - 1], now).0
  }

  /** The `sessions` store after SessionsSaved: each object under the next key in turn. */
  function SavedRecords(sessions: map<int, StoredSession>, nextId: int, objs: seq<SessionObject>, now: int): map<int, StoredSession>
  {
    if |objs| == 0 then sessions
    else
      var k := nextId + |objs| - 1;
      SavedRecords(sessions, nextId, objs[..|objs| - 1], now)[k := StoredSession(k, now, Dated(objs[|objs| - 1], now))]
  }

  /** importData(data): None when it throws 'Invalid import data' (no data, or no
      sessions on it), which happens before anything is cleared. */
  function Imported<V>(st: DbState<V>, data: Option<ImportPayload<V>>, now: int): Option<DbState<V>>
  {
    if data.None? || data.value.sessions.None? then None
    else
      var t := SessionsSaved(AllDataCleared(st), data.value.sessions.value, now);
      if data.value.settings.Some? then Some(t.(settings := SettingsPut(t.settings, data.value.settings.value)))
      else Some(t)
  }

  // ---------------------------------------------------------------------------
  // Properties of the operations

  /** The `overall` entry, when there is one, is a full re-scan of the store. */
  predicate StatsCurrent<V>(st: DbState<V>)
  {
    st.overall.Some? ==> st.overall.value == Statistics(AllSessions(st), st.overall.value.lastUpdated)
  }

  lemma ClearedListsNothing<V>(st: DbState<V>)
    requires st.sessions == map[]
    ensures AllSessions(st) == []
  {
    KeyOrderLength(st.sessions, 1, st.nextId);
    assert (set k | k in st.sessions && 1 <= k < st.nextId) == {};
  }

  /** Every operation keeps the key invariant and the re-scan invariant. */
  lemma {:induction false} InvariantsPreserved<V>(st: DbState<V>, obj: SessionObject, id: int, key: string, value: V, now: int)
    requires Valid(st) && StatsCurrent(st)
    ensures Valid(Empty<V>()) && StatsCurrent(Empty<V>())
    ensures Valid(SessionSaved(st, obj, now).0) && StatsCurrent(SessionSaved(st, obj, now).0)
    ensures Valid(SessionDeleted(st, id, now)) && StatsCurrent(SessionDeleted(st, id, now))
    ensures Valid(SessionsCleared(st, now)) && StatsCurrent(SessionsCleared(st, now))
    ensures Valid(StatsRead(st, now).0) && StatsCurrent(StatsRead(st, now).0)
    ensures Valid(SettingSaved(st, key, value)) && StatsCurrent(SettingSaved(st, key, value))
    ensures Valid(SettingDeleted(st, key)) && StatsCurrent(SettingDeleted(st, key))
    ensures Valid(AllDataCleared(st)) && StatsCurrent(AllDataCleared(st))
  {
    RecordOpsPreserve(st, obj, id, now);
    ClearingOpsPreserve(st, key, value, now);
  }

  lemma RecordOpsPreserve<V>(st: DbState<V>, obj: SessionObject, id: int, now: int)
    requires Valid(st) && StatsCurrent(st)
    ensures Valid(SessionSaved(st, obj, now).0) && StatsCurrent(SessionSaved(st, obj, now).0)
    ensures Valid(SessionDeleted(st, id, now)) && StatsCurrent(SessionDeleted(st, id, now))
    ensures Valid(StatsRead(st, now).0) && StatsCurrent(StatsRead(st, now).0)
  {
    SavePreserves(st, obj, now);
  }

  lemma SavePreserves<V>(st: DbState<V>, obj: SessionObject, now: int)
    requires Valid(st)
    ensures Valid(SessionSaved(st, obj, now).0) && StatsCurrent(SessionSaved(st, obj, now).0)
  {
  }

  lemma ClearingOpsPreserve<V>(st: DbState<V>, key: string, value: V, now: int)
    requires Valid(st) && StatsCurrent(st)
    ensures Valid(Empty<V>()) && StatsCurrent(Empty<V>())
    ensures Valid(SessionsCleared(st, now)) && StatsCurrent(SessionsCleared(st, now))
    ensures Valid(SettingSaved(st, key, value)) && StatsCurrent(SettingSaved(st, key, value))
    ensures Valid(SettingDeleted(st, key)) && StatsCurrent(SettingDeleted(st, key))
    ensures Valid(AllDataCleared(st)) && StatsCurrent(AllDataCleared(st))
  {
    ClearedListsNothing(Empty<V>());
    ClearedListsNothing(SessionsCleared(st, now));
  }

  /** saveSession stores the object under a key not used before, with its date defaulted
      to now and the save instant as timestamp; no other record and no setting changes. */
  lemma SaveAssignsFreshKey<V>(st: DbState<V>, obj: SessionObject, now: int)
    requires Valid(st)
    ensures var (t, rec) := SessionSaved(st, obj, now);
      && rec.id !in st.sessions && rec.id == st.nextId && t.nextId == st.nextId + 1
      && t.sessions == st.sessions[rec.id := rec]
      && SessionById(t, rec.id) == Some(rec)
      && rec.session.date == (if obj.date.Some? then obj.date else Some(now))
      && rec.session.(date := obj.date) == obj && rec.timestamp == now
      && t.settings == st.settings
  {
  }

  /** deleteSession(id) removes the record with that key and no other. */
  lemma DeleteRemovesOnly<V>(st: DbState<V>, id: int, now: int)
    ensures var t := SessionDeleted(st, id, now);
      && SessionById(t, id) == None
      && (forall k :: k != id ==> SessionById(t, k) == SessionById(st, k))
      && t.settings == st.settings && t.nextId == st.nextId
  {
  }

  /** A clear leaves no records, zero statistics and the key generator where it was. */
  lemma ClearZeroes<V>(st: DbState<V>, now: int)
    ensures var t := SessionsCleared(st, now);
      && AllSessions(t) == [] && t.overall == Some(ZeroStats(now)) && t.nextId == st.nextId
      && Statistics(AllSessions(t), now) == ZeroStats(now)
  {
    ClearedListsNothing(SessionsCleared(st, now));
  }

  /** Saving adds exactly the new record's contribution to every total. */
  lemma SaveAddsToTotals<V>(st: DbState<V>, obj: SessionObject, now: int)
    requires Valid(st)
    ensures var (t, rec) := SessionSaved(st, obj, now);
      var before := AllSessions(st);
      var after := t.overall.value;
      && after.totalSessions == |st.sessions| + 1
      && after.totalSteps == SumBy(before, StepsOf) + StepsOf(rec)
      && after.totalTurns == SumBy(before, TurnsOf) + TurnsOf(rec)
      && after.totalTime == SumBy(before, TimeOf) + TimeOf(rec)
      && after.avgScore == (SumBy(before, ScoreOf) + ScoreOf(rec)) / ((|st.sessions| + 1) as real)
  {
    var t := SessionSaved(st, obj, now).0;
    var rec := SessionSaved(st, obj, now).1;
    var before := AllSessions(st);
    var after := AllSessions(t);
    SumsAfterSave(st, obj, now);
    assert t.overall.value == Statistics(after, now);
    assert |after| > 0;
  }

  /** The listing after a save: one record more, and every sum grown by that record. */
  lemma SumsAfterSave<V>(st: DbState<V>, obj: SessionObject, now: int)
    requires Valid(st)
    ensures var t := SessionSaved(st, obj, now).0;
      var rec := SessionSaved(st, obj, now).1;
      var before := AllSessions(st);
      var after := AllSessions(t);
      && |after| == |st.sessions| + 1
      && SumBy(after, StepsOf) == SumBy(before, StepsOf) + StepsOf(rec)
      && SumBy(after, TurnsOf) == SumBy(before, TurnsOf) + TurnsOf(rec)
      && SumBy(after, TimeOf) == SumBy(before, TimeOf) + TimeOf(rec)
      && SumBy(after, ScoreOf) == SumBy(before, ScoreOf) + ScoreOf(rec)
  {
    var t := SessionSaved(st, obj, now).0;
    var rec := SessionSaved(st, obj, now).1;
    var before := AllSessions(st);
    var after := AllSessions(t);
    ListingAfterSave(st, obj, now);
    ListingLength(st);
    assert |after| == |multiset(after)| == |before| + 1;
    SumAfterAdd(before, after, rec, StepsOf);
    SumAfterAdd(before, after, rec, TurnsOf);
    SumAfterAdd(before, after, rec, TimeOf);
    SumAfterAdd(before, after, rec, ScoreOf);
  }

  /** After a save the listing holds the old records and the new one. */
  lemma ListingAfterSave<V>(st: DbState<V>, obj: SessionObject, now: int)
    requires Valid(st)
    ensures var (t, rec) := SessionSaved(st, obj, now);
      multiset(AllSessions(t)) == multiset(AllSessions(st) + [rec])
  {
    var (t, rec) := SessionSaved(st, obj, now);
    KeyOrderAgree(st.sessions, t.sessions, 1, st.nextId);
    var grown := KeyOrder(st.sessions, 1, st.nextId) + [rec];
    assert KeyOrder(t.sessions, 1, t.nextId) == grown;
    assert multiset(grown) == multiset(KeyOrder(st.sessions, 1, st.nextId)) + multiset{rec};
  }

  lemma SumAfterAdd(before: seq<StoredSession>, after: seq<StoredSession>, rec: StoredSession, f: StoredSession -> real)
    requires multiset(after) == multiset(before + [rec])
    ensures SumBy(after, f) == SumBy(before, f) + f(rec)
  {
    SumByPermutation(after, before + [rec], f);
    assert (before + [rec])[..|before|] == before;
  }

  /** A session summary of js/session.js, once saved, adds its `durationSeconds` to the
      total time: either that number itself or, when it is 0, parseDuration of its
      formatted duration, which is 0 as well. */
  function FromSummary(sum: Session.Summary): SessionObject
  {
    SessionObject(sum.routineName, Some(sum.date), Some(sum.duration),
                  Some(sum.durationSeconds as real), Some(sum.score as real),
                  Some(sum.avgBPM as real), Some(sum.steps), Some(sum.turns),
                  Some(sum.energy as real), sum.postureReadings, sum.bpmReadings)
  }

  lemma SavedSummaryTime<V>(st: DbState<V>, s: Session.SessionState, now: int, saveTime: int)
    requires s.data.duration >= 0
    ensures var rec := SessionSaved(st, FromSummary(Session.SummaryOf(s, now)), saveTime).1;
      TimeOf(rec) == s.data.duration as real && DateOf(rec) == now
  {
    ParseFormatRoundTrip(s.data.duration);
  }

  /** getSetting returns what saveSetting stored under that key, the default when the
      key is absent or deleted, and saving one key leaves the others as they were. */
  lemma SettingRoundTrip<V>(st: DbState<V>, key: string, other: string, value: V, defaultValue: V)
    requires other != key
    ensures SettingOr(SettingSaved(st, key, value), key, defaultValue) == value
    ensures SettingOr(SettingSaved(st, key, value), other, defaultValue) == SettingOr(st, other, defaultValue)
    ensures SettingOr(SettingDeleted(st, key), key, defaultValue) == defaultValue
    ensures key !in st.settings ==> SettingOr(st, key, defaultValue) == defaultValue
  {
  }

  /** The entry saved last for a key wins (SettingsPutUntouched covers the other keys). */
  lemma {:induction false} SettingsPutLookup<V>(m: map<string, V>, entries: seq<(string, V)>, i: nat, key: string)
    requires i < |entries| && entries[i].0 == key
    requires forall j :: i < j < |entries| ==> entries[j].0 != key
    ensures key in SettingsPut(m, entries) && SettingsPut(m, entries)[key] == entries[i].1
    decreases |entries|
  {
    if i < |entries| - 1 {
      SettingsPutLookup(m, entries[..|entries| - 1], i, key);
    }
  }

  /** A key none of the entries names keeps what it had, and stays absent if it was. */
  lemma {:induction false} SettingsPutUntouched<V>(m: map<string, V>, entries: seq<(string, V)>, key: string)
    requires forall j :: 0 <= j < |entries| ==> entries[j].0 != key
    ensures key in SettingsPut(m, entries) <==> key in m
    ensures key in m ==> SettingsPut(m, entries)[key] == m[key]
    decreases |entries|
  {
    if |entries| > 0 {
      SettingsPutUntouched(m, entries[..|entries| - 1], key);
    }
  }

  lemma {:induction false} SessionsSavedShape<V>(st: DbState<V>, objs: seq<SessionObject>, now: int)
    requires Valid(st)
    ensures var t := SessionsSaved(st, objs, now);
      && Valid(t) && |t.sessions| == |st.sessions| + |objs| && t.nextId == st.nextId + |objs|
      && t.settings == st.settings
      && (|objs| == 0 ==> t == st)
      && (|objs| > 0 ==> t.overall == Some(Statistics(AllSessions(t), now)))
    decreases |objs|
  {
    if |objs| > 0 {
      var init := objs[..|objs| - 1];
      var front := SessionsSaved(st, init, now);
      SessionsSavedShape(st, init, now);
      assert front.nextId !in front.sessions;
      SavedFields(front, objs[|objs| - 1], now);
      assert SessionsSaved(st, objs, now) == SessionSaved(front, objs[|objs| - 1], now).0;
    }
  }

  /** The records and key generator of SessionsSaved are those of SavedRecords; the
      statistics re-scans in between do not touch them. */
  lemma {:induction false} SessionsSavedRecords<V>(st: DbState<V>, objs: seq<SessionObject>, now: int)
    ensures SessionsSaved(st, objs, now).sessions == SavedRecords(st.sessions, st.nextId, objs, now)
    ensures SessionsSaved(st, objs, now).nextId == st.nextId + |objs|
    decreases |objs|
  {
    if |objs| > 0 {
      var init := objs[..|objs| - 1];
      var last := objs[|objs| - 1];
      var front := SessionsSaved(st, init, now);
      SessionsSavedRecords(st, init, now);
      SavedFields(front, last, now);
      assert SessionsSaved(st, objs, now) == SessionSaved(front, last, now).0;
      assert SavedRecords(st.sessions, st.nextId, objs, now)
          == SavedRecords(st.sessions, st.nextId, init, now)[front.nextId := StoredSession(front.nextId, now, Dated(last, now))];
    }
  }

  /** One save puts the record under the next key and advances the key generator. */
  lemma SavedFields<V>(st: DbState<V>, obj: SessionObject, now: int)
    ensures SessionSaved(st, obj, now).0.sessions == st.sessions[st.nextId := StoredSession(st.nextId, now, Dated(obj, now))]
    ensures SessionSaved(st, obj, now).0.nextId == st.nextId + 1
  {
  }

  /** The i-th object sits under key nextId + i, dated and stamped with the save instant;
      every other key is an old one and keeps its record, and no old key outside the new
      range is lost. */
  lemma {:induction false} SavedRecordsContents(sessions: map<int, StoredSession>, nextId: int, objs: seq<SessionObject>, now: int)
    ensures forall k :: nextId <= k < nextId + |objs| ==>
      && k in SavedRecords(sessions, nextId, objs, now)
      && SavedRecords(sessions, nextId, objs, now)[k] == StoredSession(k, now, Dated(objs[k - nextId], now))
    ensures forall k :: k in SavedRecords(sessions, nextId, objs, now) ==>
      (nextId <= k < nextId + |objs|) || (k in sessions && SavedRecords(sessions, nextId, objs, now)[k] == sessions[k])
    ensures forall k :: k in sessions && !(nextId <= k < nextId + |objs|) ==>
      k in SavedRecords(sessions, nextId, objs, now) && SavedRecords(sessions, nextId, objs, now)[k] == sessions[k]
    decreases |objs|
  {
    if |objs| > 0 {
      var front := objs[..|objs| - 1];
      SavedRecordsContents(sessions, nextId, front, now);
      forall i | 0 <= i < |front|
        ensures front[i] == objs[i]
      {
      }
    }
  }

  /** Saving objects in order adds the i-th under key nextId + i, dated and stamped with
      the save instant. */
  lemma SessionsSavedNew<V>(st: DbState<V>, objs: seq<SessionObject>, now: int)
    ensures forall i :: 0 <= i < |objs| ==>
      && st.nextId + i in SessionsSaved(st, objs, now).sessions
      && SessionsSaved(st, objs, now).sessions[st.nextId + i] == StoredSession(st.nextId + i, now, Dated(objs[i], now))
  {
    var r := SavedRecords(st.sessions, st.nextId, objs, now);
    SessionsSavedRecords(st, objs, now);
    SavedRecordsContents(st.sessions, st.nextId, objs, now);
    forall i | 0 <= i < |objs|
      ensures st.nextId + i in r && r[st.nextId + i] == StoredSession(st.nextId + i, now, Dated(objs[i], now))
    {
      var k := st.nextId + i;
      assert k in r && r[k] == StoredSession(k, now, Dated(objs[k - st.nextId], now));
    }
  }

  /** Saving objects keeps every old record as it was and adds keys only in the new range. */
  lemma SessionsSavedKeeps<V>(st: DbState<V>, objs: seq<SessionObject>, now: int)
    requires Valid(st)
    ensures var t := SessionsSaved(st, objs, now);
      && (forall k :: k in st.sessions ==> k in t.sessions && t.sessions[k] == st.sessions[k])
      && (forall k :: k in t.sessions ==> k in st.sessions || st.nextId <= k < st.nextId + |objs|)
  {
    var r := SavedRecords(st.sessions, st.nextId, objs, now);
    SessionsSavedRecords(st, objs, now);
    SavedRecordsContents(st.sessions, st.nextId, objs, now);
    forall k | k in st.sessions
      ensures k in r && r[k] == st.sessions[k]
    {
      assert k < st.nextId;
    }
  }

  /** Saving one more object extends the run of saves by one step. */
  lemma SessionsSavedStep<V>(st: DbState<V>, objs: seq<SessionObject>, i: int, now: int)
    requires 0 <= i < |objs|
    ensures SessionsSaved(st, objs[..i + 1], now) == SessionSaved(SessionsSaved(st, objs[..i], now), objs[i], now).0
  {
    assert objs[..i + 1][..i] == objs[..i];
    assert objs[..i + 1][i] == objs[i];
  }

  /** importData rejects a payload without sessions and changes nothing; otherwise the
      store holds as many records as were imported under fresh keys (old keys are never
      reused), the imported settings, and statistics only if a session was saved.
      ImportedSessionsContents and ImportedOnlyNew give the records themselves. */
  lemma ImportOutcome<V>(st: DbState<V>, data: Option<ImportPayload<V>>, now: int)
    requires Valid(st)
    ensures Imported(st, data, now).None? <==> data.None? || data.value.sessions.None?
    ensures Imported(st, data, now).Some? ==>
      var t := Imported(st, data, now).value;
      var objs := data.value.sessions.value;
      && Valid(t) && |t.sessions| == |objs| && t.nextId == st.nextId + |objs|
      && (objs == [] ==> t.overall == None)
      && (objs != [] ==> t.overall == Some(Statistics(AllSessions(t), now)))
      && (data.value.settings.None? ==> t.settings == map[])
      && (data.value.settings.Some? ==> t.settings == SettingsPut(map[], data.value.settings.value))
  {
    if data.Some? && data.value.sessions.Some? {
      ImportedSessionsShape(st, data.value, now);
      ImportedSettings(st, data.value, now);
    }
  }

  /** The sessions part of a successful import. */
  lemma ImportedSessionsShape<V>(st: DbState<V>, payload: ImportPayload<V>, now: int)
    requires Valid(st) && payload.sessions.Some?
    ensures var t := Imported(st, Some(payload), now).value;
      var objs := payload.sessions.value;
      && Valid(t) && |t.sessions| == |objs| && t.nextId == st.nextId + |objs|
      && (objs == [] ==> t.overall == None)
      && (objs != [] ==> t.overall == Some(Statistics(AllSessions(t), now)))
  {
    var cleared := AllDataCleared(st);
    SessionsSavedShape(cleared, payload.sessions.value, now);
    var t := SessionsSaved(cleared, payload.sessions.value, now);
    var imported := Imported(st, Some(payload), now).value;
    assert imported.sessions == t.sessions && imported.nextId == t.nextId && imported.overall == t.overall;
    assert AllSessions(imported) == AllSessions(t);
  }

  /** The settings part of a successful import: the imported entries over an empty store. */
  lemma ImportedSettings<V>(st: DbState<V>, payload: ImportPayload<V>, now: int)
    requires Valid(st) && payload.sessions.Some?
    ensures var t := Imported(st, Some(payload), now).value;
      && (payload.settings.None? ==> t.settings == map[])
      && (payload.settings.Some? ==> t.settings == SettingsPut(map[], payload.settings.value))
  {
    SessionsSavedShape(AllDataCleared(st), payload.sessions.value, now);
  }

  /** The records of a successful import: for every index i of the imported list, the
      i-th object under key nextId + i, dated and stamped with the import instant. */
  lemma ImportedSessionsContents<V>(st: DbState<V>, payload: ImportPayload<V>, now: int, i: int)
    requires payload.sessions.Some? && 0 <= i < |payload.sessions.value|
    ensures st.nextId + i in Imported(st, Some(payload), now).value.sessions
    ensures Imported(st, Some(payload), now).value.sessions[st.nextId + i]
         == StoredSession(st.nextId + i, now, Dated(payload.sessions.value[i], now))
  {
    ImportedRecords(st, payload, now);
    SavedRecordAt(map[], st.nextId, payload.sessions.value, now, i);
  }

  /** A successful import holds no record but the imported ones, since everything was
      cleared first. */
  lemma ImportedOnlyNew<V>(st: DbState<V>, payload: ImportPayload<V>, now: int)
    requires payload.sessions.Some?
    ensures forall k :: k in Imported(st, Some(payload), now).value.sessions ==>
      st.nextId <= k < st.nextId + |payload.sessions.value|
  {
    ImportedRecords(st, payload, now);
    SavedRecordsContents(map[], st.nextId, payload.sessions.value, now);
  }

  /** The i-th saved object sits under key nextId + i. */
  lemma SavedRecordAt(sessions: map<int, StoredSession>, nextId: int, objs: seq<SessionObject>, now: int, i: int)
    requires 0 <= i < |objs|
    ensures nextId + i in SavedRecords(sessions, nextId, objs, now)
    ensures SavedRecords(sessions, nextId, objs, now)[nextId + i] == StoredSession(nextId + i, now, Dated(objs[i], now))
  {
    SavedRecordsContents(sessions, nextId, objs, now);
    var k := nextId + i;
    assert k - nextId == i;
  }

  /** A successful import's records are those of saving the objects into an empty store. */
  lemma ImportedRecords<V>(st: DbState<V>, payload: ImportPayload<V>, now: int)
    requires payload.sessions.Some?
    ensures Imported(st, Some(payload), now).value.sessions
         == SavedRecords(map[], st.nextId, payload.sessions.value, now)
  {
    SessionsSavedRecords(AllDataCleared(st), payload.sessions.value, now);
  }

  // ---------------------------------------------------------------------------
  // The database object

  datatype ImportResult = InvalidImportData | ImportDone

  class Db<V> {
    var sessions: map<int, StoredSession>
    var nextId: int
    var settings: map<string, V>
    var overall: Option<Stats>

    function State(): DbState<V>
      reads this
    {
      DbState(sessions, nextId, settings, overall)
    }

    /** init() on a database that did not exist: three empty stores. */
    constructor ()
      ensures State() == Empty<V>()
    {
      sessions, nextId, settings, overall := map[], 1, map[], None;
    }

    /** getAll() in key order, then the sort. */
    method GetAllSessions() returns (all: seq<StoredSession>)
      ensures all == AllSessions(State())
    {
      var inKeyOrder: seq<StoredSession> := [];
      var k := 1;
      while k < nextId
        invariant 1 <= k && (k <= nextId || k == 1)
        invariant inKeyOrder == KeyOrder(sessions, 1, k)
        decreases nextId - k
      {
        if k in sessions {
          inKeyOrder := inKeyOrder + [sessions[k]];
        }
        k := k + 1;
      }
      all := SortNewestFirst(inKeyOrder);
    }

    method GetRecentSessions(limit: int) returns (recent: seq<StoredSession>)
      ensures recent == RecentSessions(State(), limit)
    {
      var all := GetAllSessions();
      recent := all[..SliceEnd(|all|, limit)];
    }

    method GetSession(id: int) returns (r: Option<StoredSession>)
      ensures r.Some? <==> id in sessions
      ensures r.Some? ==> r.value == sessions[id]
    {
      if id in sessions {
        r := Some(sessions[id]);
      } else {
        r := None;
      }
    }

    method UpdateStatistics(now: int)
      modifies this
      ensures State() == Rescanned(old(State()), now)
    {
      var all := GetAllSessions();
      if |all| == 0 {
        ResetStatistics(now);
        return;
      }
      overall := Some(Statistics(all, now));
    }

    method ResetStatistics(now: int)
      modifies this
      ensures State() == old(State()).(overall := Some(ZeroStats(now)))
    {
      overall := Some(ZeroStats(now));
    }

    method SaveSession(obj: SessionObject, now: int) returns (rec: StoredSession)
      modifies this
      ensures State() == SessionSaved(old(State()), obj, now).0
      ensures rec == SessionSaved(old(State()), obj, now).1
    {
      rec := StoredSession(nextId, now, Dated(obj, now));
      sessions := sessions[nextId := rec];
      nextId := nextId + 1;
      UpdateStatistics(now);
    }

    method DeleteSession(id: int, now: int) returns (ok: bool)
      modifies this
      ensures ok && State() == SessionDeleted(old(State()), id, now)
    {
      sessions := sessions - {id};
      UpdateStatistics(now);
      ok := true;
    }

    method ClearAllSessions(now: int) returns (ok: bool)
      modifies this
      ensures ok && State() == SessionsCleared(old(State()), now)
    {
      sessions := map[];
      ResetStatistics(now);
      ok := true;
    }

    method GetStatistics(now: int) returns (stats: Stats)
      modifies this
      ensures (State(), stats) == StatsRead(old(State()), now)
    {
      if overall.Some? {
        stats := overall.value;
        return;
      }
      UpdateStatistics(now);
      stats := overall.value;
    }

    method SaveSetting(key: string, value: V) returns (saved: V)
      modifies this
      ensures saved == value && State() == SettingSaved(old(State()), key, value)
    {
      settings := settings[key := value];
      saved := value;
    }

    method GetSetting(key: string, defaultValue: V) returns (value: V)
      ensures key in settings ==> value == settings[key]
      ensures key !in settings ==> value == defaultValue
    {
      if key in settings {
        value := settings[key];
      } else {
        value := defaultValue;
      }
    }

    method GetSettings() returns (all: map<string, V>)
      ensures all == settings
    {
      all := settings;
    }

    method SaveSettings(entries: seq<(string, V)>)
      modifies this
      ensures State() == old(State()).(settings := SettingsPut(old(settings), entries))
    {
      var i := 0;
      while i < |entries|
        invariant 0 <= i <= |entries|
        invariant State() == old(State()).(settings := SettingsPut(old(settings), entries[..i]))
      {
        assert entries[..i + 1][..i] == entries[..i];
        var _ := SaveSetting(entries[i].0, entries[i].1);
        i := i + 1;
      }
      assert entries[..i] == entries;
    }

    method DeleteSetting(key: string) returns (ok: bool)
      modifies this
      ensures ok && State() == SettingDeleted(old(State()), key)
    {
      settings := settings - {key};
      ok := true;
    }

    method ClearAllData() returns (ok: bool)
      modifies this
      ensures ok && State() == AllDataCleared(old(State()))
    {
      sessions, settings, overall := map[], map[], None;
      ok := true;
    }

    method ImportData(data: Option<ImportPayload<V>>, now: int) returns (r: ImportResult)
      modifies this
      ensures r == InvalidImportData <==> Imported(old(State()), data, now).None?
      ensures r == InvalidImportData ==> State() == old(State())
      ensures r == ImportDone ==> State() == Imported(old(State()), data, now).value
    {
      if data.None? || data.value.sessions.None? {
        return InvalidImportData;
      }
      ghost var before := State();
      var _ := ClearAllData();
      SaveSessions(data.value.sessions.value, now);
      ghost var saved := State();
      assert saved == SessionsSaved(AllDataCleared(before), data.value.sessions.value, now);
      if data.value.settings.Some? {
        SaveSettings(data.value.settings.value);
        assert State() == saved.(settings := SettingsPut(saved.settings, data.value.settings.value));
      }
      r := ImportDone;
    }

    /** The loop of importData: one saveSession per object, in order. */
    method SaveSessions(objs: seq<SessionObject>, now: int)
      modifies this
      ensures State() == SessionsSaved(old(State()), objs, now)
    {
      ghost var start := State();
      var i := 0;
      while i < |objs|
        invariant 0 <= i <= |objs|
        invariant State() == SessionsSaved(start, objs[..i], now)
      {
        SessionsSavedStep(start, objs, i, now);
        var _ := SaveSession(objs[i], now);
        i := i + 1;
      }
      assert objs[..i] == objs;
    }
  }
}
