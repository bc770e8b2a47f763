/** Login protection and API-key extraction (backend/src/services/auth.rs).
    Failures are remembered per client IP for a sliding minute; a client
    with more than five failures in that minute is banned for good. */
module AuthService {
  import opened Wrappers
  import opened Text
  import opened Http

  /** The window of `Duration::from_secs(60)`, in nanoseconds. */
  const WindowNanos: int := 60_000_000_000

  /** More failures than this within the window ban the client. */
  const MaxFailures: nat := 5

  /** The failure instants of one client (nanoseconds on a monotonic clock)
      and whether it is banned. */
  datatype IpRecord = IpRecord(failures: seq<int>, banned: bool)

  /** `now.duration_since(t) <= 60 s`; `duration_since` saturates at zero, so
      an instant after `now` is kept too. */
  predicate Recent(t: int, now: int) {
    now - t <= WindowNanos
  }

  /** `failures.retain(|&t| now.duration_since(t) <= 60 s)`: the recent
      failures; `RetainCounts` and `RetainKeepsOrder` add that each is kept
      as many times as it was recorded, in its order. */
  function Retain(failures: seq<int>, now: int): (r: seq<int>)
    ensures |r| <= |failures|
    ensures forall t :: t in r <==> t in failures && Recent(t, now)
  {
    if |failures| == 0 then []
    else
      var init := failures[..|failures| - 1];
      var last := failures[|failures| - 1];
      assert failures == init + [last];
      Retain(init, now) + (if Recent(last, now) then [last] else [])
  }

  /** Every recent failure is kept as many times as it was recorded, and
      no other is kept. */
  lemma {:induction false} RetainCounts(failures: seq<int>, now: int)
    ensures forall t :: multiset(Retain(failures, now))[t]
                        == if Recent(t, now) then multiset(failures)[t] else 0
    decreases |failures|
  {
    if |failures| > 0 {
      var init := failures[..|failures| - 1];
      var last := failures[|failures| - 1];
      assert failures == init + [last];
      RetainCounts(init, now);
      assert multiset(failures) == multiset(init) + multiset{last};
    }
  }

  /** Whether `a` is `b` with some elements removed, the rest in order;
      matched from the end. */
  predicate Subsequence(a: seq<int>, b: seq<int>)
    decreases |b|
  {
    if |a| == 0 then true
    else if |b| == 0 then false
    else if a[|a| - 1] == b[|b| - 1] then Subsequence(a[..|a| - 1], b[..|b| - 1])
    else Subsequence(a, b[..|b| - 1])
  }

  /** Retaining removes failures and never reorders the ones it keeps. */
  lemma {:induction false} RetainKeepsOrder(failures: seq<int>, now: int)
    ensures Subsequence(Retain(failures, now), failures)
    decreases |failures|
  {
    if |failures| > 0 {
      var init := failures[..|failures| - 1];
      var last := failures[|failures| - 1];
      RetainKeepsOrder(init, now);
      var r := Retain(failures, now);
      if Recent(last, now) {
        assert r == Retain(init, now) + [last];
        assert r[..|r| - 1] == Retain(init, now);
      } else {
        assert r == Retain(init, now);
        if |r| > 0 {
          assert r[|r| - 1] in r;
        }
      }
    }
  }

  /** The records after `record_failure(ip)` at instant `now`. */
  function AfterFailure(records: map<string, IpRecord>, ip: string, now: int): map<string, IpRecord> {
    var record := if ip in records then records[ip] else IpRecord([], false);
    if record.banned then records
    else
      var kept := Retain(record.failures + [now], now);
      records[ip := IpRecord(kept, |kept| > MaxFailures)]
  }

  /** `LoginProtection`: one record per client IP. */
  class LoginProtection {
    var records: map<string, IpRecord>

    constructor()
      ensures records == map[]
    {
      records := map[];
    }

    /** `is_banned`: a client without a record is not banned. */
    function IsBanned(ip: string): (r: bool)
      reads this
      ensures r <==> ip in records && records[ip].banned
    {
      if ip in records then records[ip].banned else false
    }

    /** `record_failure`: the record is created if missing; a banned client's
        record is left alone; otherwise `now` is pushed, old failures are
        dropped in place, and the ban is set past five. */
    method RecordFailure(ip: string, now: int)
      modifies this
      ensures records == AfterFailure(old(records), ip, now)
    {
      var record := if ip in records then records[ip] else IpRecord([], false);
      if record.banned {
        return;
      }
      var failures := record.failures + [now];
      var kept: seq<int> := [];
      var i := 0;
      while i < |failures|
        invariant 0 <= i <= |failures|
        invariant kept == Retain(failures[..i], now)
      {
        assert failures[..i + 1][..i] == failures[..i];
        if Recent(failures[i], now) {
          kept := kept + [failures[i]];
        }
        i := i + 1;
      }
      assert failures[..|failures|] == failures;
      records := records[ip := IpRecord(kept, |kept| > MaxFailures)];
    }
  }

  /** Recording a failure keeps exactly the failures of the last minute, the
      new one among them, bans exactly when more than five remain, and leaves
      every other client alone. A banned client's state does not change. */
  lemma AfterFailureRecord(records: map<string, IpRecord>, ip: string, now: int)
    ensures ip in records && records[ip].banned ==> AfterFailure(records, ip, now) == records
    ensures !(ip in records && records[ip].banned) ==>
              var oldFailures := if ip in records then records[ip].failures else [];
              var r := AfterFailure(records, ip, now)[ip];
              && now in r.failures
              && (forall t :: t in r.failures <==> (t in oldFailures || t == now) && Recent(t, now))
              && (forall t :: multiset(r.failures)[t]
                               == if Recent(t, now) then multiset(oldFailures + [now])[t] else 0)
              && (r.banned <==> |r.failures| > MaxFailures)
    ensures forall other :: other != ip ==>
              (other in AfterFailure(records, ip, now) <==> other in records)
              && (other in records ==> AfterFailure(records, ip, now)[other] == records[other])
  {
    var oldFailures := if ip in records then records[ip].failures else [];
    RetainCounts(oldFailures + [now], now);
  }

  /** No failure ever lifts a ban. */
  lemma BanIsPermanent(records: map<string, IpRecord>, ip: string, now: int, client: string)
    requires client in records && records[client].banned
    ensures client in AfterFailure(records, ip, now) && AfterFailure(records, ip, now)[client].banned
  {
  }

  /** The sixth failure within a minute bans: a client holding five or more
      failures of the last minute is banned by the next one. */
  lemma SixthFailureBans(records: map<string, IpRecord>, ip: string, now: int)
    requires ip in records && !records[ip].banned
    requires |records[ip].failures| >= MaxFailures
    requires forall k :: 0 <= k < |records[ip].failures| ==> Recent(records[ip].failures[k], now)
    ensures AfterFailure(records, ip, now)[ip].banned
  {
    var fs := records[ip].failures + [now];
    RetainAllRecent(fs, now);
  }

  lemma {:induction false} RetainAllRecent(failures: seq<int>, now: int)
    requires forall k :: 0 <= k < |failures| ==> Recent(failures[k], now)
    ensures Retain(failures, now) == failures
  {
    if |failures| > 0 {
      var init := failures[..|failures| - 1];
      forall k | 0 <= k < |init|
        ensures Recent(init[k], now)
      {
        assert init[k] == failures[k];
      }
      RetainAllRecent(init, now);
      assert Recent(failures[|failures| - 1], now);
    }
  }

  /** `extract_api_key`: the rest of an `Authorization: Bearer ` value
      (possibly empty), else the `x-api-key` value. The prefix is matched
      case-sensitively. */
  function ExtractApiKey(headers: HeaderMap): (r: Option<string>)
    ensures r.None? <==> (HeaderStr(headers, "authorization").None?
                          || !StartsWith(HeaderStr(headers, "authorization").value, "Bearer "))
                         && HeaderStr(headers, "x-api-key").None?
  {
    var bearer := match HeaderStr(headers, "authorization")
                  case Some(value) => StripPrefix(value, "Bearer ")
                  case None => None;
    if bearer.Some? then bearer else HeaderStr(headers, "x-api-key")
  }

  /** A readable Bearer value wins over `x-api-key`; anything else about
      `Authorization` (absent, unreadable, another scheme or another case)
      falls back to `x-api-key`. */
  lemma ApiKeySources(headers: HeaderMap, token: string)
    ensures HeaderStr(headers, "authorization") == Some("Bearer " + token) ==> ExtractApiKey(headers) == Some(token)
    ensures (HeaderStr(headers, "authorization").None?
             || !StartsWith(HeaderStr(headers, "authorization").value, "Bearer "))
            ==> ExtractApiKey(headers) == HeaderStr(headers, "x-api-key")
  {
    if HeaderStr(headers, "authorization") == Some("Bearer " + token) {
      assert ("Bearer " + token)[..7] == "Bearer ";
      assert ("Bearer " + token)[7..] == token;
    }
  }
}
