/**
 The OTP request limiter in its three forms: the pruned table, the in-memory lists, and the full
 history of accepted requests that neither of them keeps.  Times are whole milliseconds.
 */
module OtpLimiter {
  import opened Domain

  const WINDOW_MS := 60 * 60_000
  const COOLDOWN_MS := 60_000
  const MAX_PER_WINDOW := 5

  datatype Request = Request(phone: string, at: int)
  datatype Verdict = Accepted | Cooldown | Limit | InvalidNumber

  // ---------------------------------------------------------------- times of one phone

  /** `s`, with `x` appended if it is kept. */
  function Append<T>(s: seq<T>, keep: bool, x: T): seq<T> {
    if keep then s + [x] else s
  }

  function TimesOf(rows: seq<Request>, phone: string): seq<int> {
    if rows == [] then []
    else
      var last := rows[|rows| - 1];
      Append(TimesOf(rows[..|rows| - 1], phone), last.phone == phone, last.at)
  }

  function LaterThan(times: seq<int>, t: int): seq<int> {
    if times == [] then []
    else
      var last := times[|times| - 1];
      Append(LaterThan(times[..|times| - 1], t), last > t, last)
  }

  /** The verdict on a request at `t`, given the phone's accepted times within the window. */
  function Judge(recent: seq<int>, t: int): Verdict {
    if recent != [] && t - recent[|recent| - 1] < COOLDOWN_MS then Cooldown
    else if |recent| >= MAX_PER_WINDOW then Limit
    else Accepted
  }

  // ---------------------------------------------------------------- three limiters

  function FullVerdict(history: seq<Request>, r: Request): Verdict {
    Judge(LaterThan(TimesOf(history, r.phone), r.at - WINDOW_MS), r.at)
  }

  /** The full history: every accepted request, never pruned. */
  function FullStep(history: seq<Request>, r: Request): seq<Request> {
    if FullVerdict(history, r).Accepted? then history + [r] else history
  }

  function KeepFrom(rows: seq<Request>, t: int): seq<Request> {
    if rows == [] then []
    else
      var last := rows[|rows| - 1];
      Append(KeepFrom(rows[..|rows| - 1], t), last.at >= t, last)
  }

  function Newest(times: seq<int>): int
    requires times != []
  {
    if |times| == 1 then times[0]
    else
      var rest := Newest(times[1..]);
      if times[0] > rest then times[0] else rest
  }

  /** The query's rows come newest first, whatever their order in the table. */
  function TableVerdict(rows: seq<Request>, r: Request): Verdict {
    var recent := LaterThan(TimesOf(rows, r.phone), r.at - WINDOW_MS);
    if recent != [] && r.at - Newest(recent) < COOLDOWN_MS then Cooldown
    else if |recent| >= MAX_PER_WINDOW then Limit
    else Accepted
  }

  /** The table: an accepted request also deletes the rows of every phone that left its window. */
  function TableStep(rows: seq<Request>, r: Request): seq<Request> {
    if TableVerdict(rows, r).Accepted? then KeepFrom(rows + [r], r.at - WINDOW_MS) else rows
  }

  function ListOf(times: map<string, seq<int>>, phone: string): seq<int> {
    if phone in times then times[phone] else []
  }

  function MemoryRecent(times: map<string, seq<int>>, r: Request): seq<int> {
    LaterThan(ListOf(times, r.phone), r.at - WINDOW_MS)
  }

  function MemoryVerdict(times: map<string, seq<int>>, r: Request): Verdict {
    Judge(MemoryRecent(times, r), r.at)
  }

  /** The lists: an accepted request rewrites its own phone's list only. */
  function MemoryStep(times: map<string, seq<int>>, r: Request): map<string, seq<int>> {
    if MemoryVerdict(times, r).Accepted? then times[r.phone := MemoryRecent(times, r) + [r.at]] else times
  }

  function FullRun(requests: seq<Request>): seq<Request> {
    if requests == [] then [] else FullStep(FullRun(requests[..|requests| - 1]), requests[|requests| - 1])
  }

  function TableRun(requests: seq<Request>): seq<Request> {
    if requests == [] then [] else TableStep(TableRun(requests[..|requests| - 1]), requests[|requests| - 1])
  }

  function MemoryRun(requests: seq<Request>): map<string, seq<int>> {
    if requests == [] then map[] else MemoryStep(MemoryRun(requests[..|requests| - 1]), requests[|requests| - 1])
  }

  // ---------------------------------------------------------------- filters

  lemma {:induction false} LaterThanLater(times: seq<int>, s: int, t: int)
    requires s <= t
    ensures LaterThan(LaterThan(times, s), t) == LaterThan(times, t)
  {
    if times != [] {
      var front, last := times[..|times| - 1], times[|times| - 1];
      LaterThanLater(front, s, t);
      if last > s {
        LaterThanAppends(LaterThan(front, s), last, t);
      }
    }
  }

  lemma LaterThanAppends(times: seq<int>, last: int, t: int)
    ensures LaterThan(times + [last], t) == Append(LaterThan(times, t), last > t, last)
  {
    assert (times + [last])[..|times|] == times;
  }

  lemma TimesOfAppends(rows: seq<Request>, r: Request, phone: string)
    ensures TimesOf(rows + [r], phone) == Append(TimesOf(rows, phone), r.phone == phone, r.at)
  {
    assert (rows + [r])[..|rows|] == rows;
  }

  lemma KeepFromAppends(rows: seq<Request>, r: Request, t: int)
    ensures KeepFrom(rows + [r], t) == Append(KeepFrom(rows, t), r.at >= t, r)
  {
    assert (rows + [r])[..|rows|] == rows;
  }

  lemma {:induction false} KeepFromTwice(rows: seq<Request>, s: int, t: int)
    requires s <= t
    ensures KeepFrom(KeepFrom(rows, s), t) == KeepFrom(rows, t)
  {
    if rows != [] {
      var front, last := rows[..|rows| - 1], rows[|rows| - 1];
      KeepFromTwice(front, s, t);
      if last.at >= s {
        KeepFromAppends(KeepFrom(front, s), last, t);
      }
    }
  }

  /** Rows before the cut never matter to a window that starts at the cut or later. */
  lemma {:induction false} PruningIsInvisible(rows: seq<Request>, cut: int, phone: string, t: int)
    requires cut <= t + 1
    ensures LaterThan(TimesOf(KeepFrom(rows, cut), phone), t) == LaterThan(TimesOf(rows, phone), t)
  {
    if rows != [] {
      var front, last := rows[..|rows| - 1], rows[|rows| - 1];
      PruningIsInvisible(front, cut, phone, t);
      if last.at >= cut {
        TimesOfAppends(KeepFrom(front, cut), last, phone);
      }
      if last.phone == phone {
        LaterThanAppends(TimesOf(front, phone), last.at, t);
        if last.at >= cut {
          LaterThanAppends(TimesOf(KeepFrom(front, cut), phone), last.at, t);
        }
      }
    }
  }

  // ---------------------------------------------------------------- what the limit guarantees

  /** Accepted times of one phone: at least a minute apart, and at most five in any hour. */
  ghost predicate Spaced(times: seq<int>) {
    && (forall i, j | 0 <= i < j < |times| :: times[j] - times[i] >= COOLDOWN_MS)
    && (forall i, j | 0 <= i && i + MAX_PER_WINDOW <= j < |times| :: times[j] - times[i] >= WINDOW_MS)
  }

  /** In ascending times the ones later than `t` are the last ones. */
  lemma {:induction false} LaterThanIsSuffix(times: seq<int>, t: int)
    requires Ascending(times)
    ensures IsTail(times, LaterThan(times, t), t)
  {
    if times != [] {
      var front, last := times[..|times| - 1], times[|times| - 1];
      LaterThanIsSuffix(front, t);
      TailGrows(front, LaterThan(front, t), t, last);
      assert times == front + [last];
    }
  }

  predicate IsTail(times: seq<int>, later: seq<int>, t: int) {
    && |later| <= |times| && later == times[|times| - |later|..]
    && (forall i | 0 <= i < |times| - |later| :: times[i] <= t)
    && (forall i | |times| - |later| <= i < |times| :: times[i] > t)
  }

  lemma TailGrows(front: seq<int>, later: seq<int>, t: int, last: int)
    requires IsTail(front, later, t) && Ascending(front + [last])
    ensures IsTail(front + [last], Append(later, last > t, last), t)
  {
    var times := front + [last];
    if later != [] {
      assert times[|front| - 1] == front[|front| - 1] > t;
      assert times[|front| - 1] <= times[|front|];
    }
  }

  predicate Ascending(times: seq<int>) {
    forall i, j | 0 <= i < j < |times| :: times[i] <= times[j]
  }

  lemma {:induction false} NewestIsLast(times: seq<int>)
    requires times != [] && Ascending(times)
    ensures Newest(times) == times[|times| - 1]
  {
    if |times| > 1 {
      NewestIsLast(times[1..]);
      assert times[0] <= times[|times| - 1];
    }
  }

  /** With the phone's times ascending, the newest row is the last one. */
  lemma NewestFirst(rows: seq<Request>, history: seq<Request>, r: Request)
    requires Ascending(TimesOf(history, r.phone))
    requires LaterThan(TimesOf(rows, r.phone), r.at - WINDOW_MS) ==
      LaterThan(TimesOf(history, r.phone), r.at - WINDOW_MS)
    ensures TableVerdict(rows, r) == FullVerdict(history, r)
  {
    hide LaterThan, TimesOf, IsTail;
    var recent := LaterThan(TimesOf(history, r.phone), r.at - WINDOW_MS);
    LaterThanIsSuffix(TimesOf(history, r.phone), r.at - WINDOW_MS);
    if recent != [] {
      NewestOfTail(TimesOf(history, r.phone), recent, r.at - WINDOW_MS);
    }
  }

  lemma NewestOfTail(times: seq<int>, recent: seq<int>, t: int)
    requires Ascending(times) && IsTail(times, recent, t) && recent != []
    ensures Newest(recent) == recent[|recent| - 1]
  {
    NewestIsLast(recent);
  }

  lemma AcceptedKeepsSpacing(times: seq<int>, t: int)
    requires Spaced(times) && Judge(LaterThan(times, t - WINDOW_MS), t).Accepted?
    ensures Spaced(times + [t])
  {
    LaterThanIsSuffix(times, t - WINDOW_MS);
    SpacedOnAcceptance(times, LaterThan(times, t - WINDOW_MS), t);
  }

  lemma SpacedOnAcceptance(times: seq<int>, later: seq<int>, t: int)
    requires Spaced(times) && IsTail(times, later, t - WINDOW_MS) && Judge(later, t).Accepted?
    ensures Spaced(times + [t])
  {
    var n := |times|;
    forall i | 0 <= i < n ensures t - times[i] >= COOLDOWN_MS {
      assert later != [] ==> later[|later| - 1] == times[n - 1];
      assert i < n - 1 ==> times[n - 1] - times[i] >= COOLDOWN_MS;
    }
    forall i | 0 <= i <= n - MAX_PER_WINDOW ensures t - times[i] >= WINDOW_MS {
      assert i < n - |later|;
    }
  }

  /**
   One phone's accepted requests are a minute apart and at most five an hour, whatever the clock does:
   a request before the last accepted one is within the cooldown.
   */
  lemma {:induction false} AcceptedAreSpaced(requests: seq<Request>, phone: string)
    ensures Spaced(TimesOf(FullRun(requests), phone))
  {
    if requests != [] {
      var front, last := requests[..|requests| - 1], requests[|requests| - 1];
      AcceptedAreSpaced(front, phone);
      TimesOfAppends(FullRun(front), last, phone);
      if last.phone == phone && FullVerdict(FullRun(front), last).Accepted? {
        AcceptedKeepsSpacing(TimesOf(FullRun(front), phone), last.at);
      }
    }
  }

  lemma AscendingTimes(requests: seq<Request>, phone: string)
    ensures Ascending(TimesOf(FullRun(requests), phone))
  {
    hide TimesOf, FullRun;
    AcceptedAreSpaced(requests, phone);
  }

  /** A verdict in terms of the accepted times alone: the last one, and the fifth from the end. */
  lemma VerdictMeaning(requests: seq<Request>, r: Request)
    ensures var times := TimesOf(FullRun(requests), r.phone);
      && (FullVerdict(FullRun(requests), r).Cooldown? <==> times != [] && r.at - times[|times| - 1] < 60_000)
      && (FullVerdict(FullRun(requests), r).Limit? <==>
            && !FullVerdict(FullRun(requests), r).Cooldown?
            && |times| >= 5 && r.at - times[|times| - 5] < 3_600_000)
      && !FullVerdict(FullRun(requests), r).InvalidNumber?
  {
    hide FullRun, TimesOf, LaterThan;
    AscendingTimes(requests, r.phone);
    LaterThanIsSuffix(TimesOf(FullRun(requests), r.phone), r.at - WINDOW_MS);
  }

  // ---------------------------------------------------------------- the refinement

  function FullVerdicts(requests: seq<Request>): seq<Verdict> {
    if requests == [] then []
    else
      var front := requests[..|requests| - 1];
      FullVerdicts(front) + [FullVerdict(FullRun(front), requests[|requests| - 1])]
  }

  function TableVerdicts(requests: seq<Request>): seq<Verdict> {
    if requests == [] then []
    else
      var front := requests[..|requests| - 1];
      TableVerdicts(front) + [TableVerdict(TableRun(front), requests[|requests| - 1])]
  }

  function MemoryVerdicts(requests: seq<Request>): seq<Verdict> {
    if requests == [] then []
    else
      var front := requests[..|requests| - 1];
      MemoryVerdicts(front) + [MemoryVerdict(MemoryRun(front), requests[|requests| - 1])]
  }

  /** Each phone's list is its accepted times within the window that ends at the last of them. */
  ghost predicate ListAgrees(times: map<string, seq<int>>, history: seq<Request>, phone: string) {
    var accepted := TimesOf(history, phone);
    if phone in times then accepted != [] && times[phone] == LaterThan(accepted, accepted[|accepted| - 1] - WINDOW_MS)
    else accepted == []
  }

  /** Before the last accepted time both limiters see that time, and answer `Cooldown`. */
  lemma BackInTimeIsCooldown(times: seq<int>, cut: int, t: int)
    requires times != [] && Ascending(times) && t < times[|times| - 1] && cut < times[|times| - 1]
    ensures Judge(LaterThan(LaterThan(times, cut), t - WINDOW_MS), t) == Cooldown ==
      Judge(LaterThan(times, t - WINDOW_MS), t)
  {
    LaterThanIsSuffix(times, cut);
    LaterThanIsSuffix(LaterThan(times, cut), t - WINDOW_MS);
    LaterThanIsSuffix(times, t - WINDOW_MS);
  }

  lemma SameForMemory(times: map<string, seq<int>>, history: seq<Request>, r: Request)
    requires Ascending(TimesOf(history, r.phone)) && ListAgrees(times, history, r.phone)
    ensures MemoryVerdict(times, r) == FullVerdict(history, r)
    ensures FullVerdict(history, r).Accepted? ==>
      MemoryRecent(times, r) == LaterThan(TimesOf(history, r.phone), r.at - WINDOW_MS)
  {
    var accepted := TimesOf(history, r.phone);
    hide TimesOf, LaterThan, IsTail;
    if r.phone in times {
      var last := accepted[|accepted| - 1];
      if r.at < last {
        BackInTimeIsCooldown(accepted, last - WINDOW_MS, r.at);
      } else {
        LaterThanLater(accepted, last - WINDOW_MS, r.at - WINDOW_MS);
      }
    } else {
      NothingIsLater(r.at - WINDOW_MS);
    }
  }

  lemma NothingIsLater(t: int)
    ensures LaterThan([], t) == []
  {
  }

  lemma ListsStillAgree(times: map<string, seq<int>>, history: seq<Request>, r: Request, phone: string)
    requires Ascending(TimesOf(history, r.phone)) && ListAgrees(times, history, r.phone)
      && ListAgrees(times, history, phone)
    ensures ListAgrees(MemoryStep(times, r), FullStep(history, r), phone)
  {
    SameForMemory(times, history, r);
    TimesOfAppends(history, r, phone);
    LaterThanAppends(TimesOf(history, r.phone), r.at, r.at - WINDOW_MS);
    hide TimesOf, LaterThan;
  }

  lemma {:induction false} ListsAgree(requests: seq<Request>, phone: string)
    ensures ListAgrees(MemoryRun(requests), FullRun(requests), phone)
  {
    if requests != [] {
      var front, last := requests[..|requests| - 1], requests[|requests| - 1];
      ListsAgree(front, phone);
      ListsAgree(front, last.phone);
      AscendingTimes(front, last.phone);
      ListsStillAgree(MemoryRun(front), FullRun(front), last, phone);
    }
  }

  /** The lists forget nothing that matters: on every sequence of requests they answer as the full history does. */
  lemma {:induction false} ListsAnswerAsHistory(requests: seq<Request>)
    ensures MemoryVerdicts(requests) == FullVerdicts(requests)
  {
    hide FullVerdict, MemoryVerdict, FullRun, MemoryRun, ListAgrees;
    if requests != [] {
      var front, last := requests[..|requests| - 1], requests[|requests| - 1];
      ListsAnswerAsHistory(front);
      ListsAgree(front, last.phone);
      AscendingTimes(front, last.phone);
      SameForMemory(MemoryRun(front), FullRun(front), last);
    }
  }

  // ---------------------------------------------------------------- how far back the clock may step

  /** No request is more than `b` milliseconds before an earlier one, of any phone. */
  predicate StepsBack(requests: seq<Request>, b: int) {
    forall i, j | 0 <= i < j < |requests| :: requests[j].at >= requests[i].at - b
  }

  /** The table is the history from the start of some request's window on. */
  ghost predicate TableAgrees(requests: seq<Request>, rows: seq<Request>, history: seq<Request>) {
    rows == history || exists q | q in requests :: rows == KeepFrom(history, q.at - WINDOW_MS)
  }

  /** Rows from a cut on survive every earlier cut. */
  lemma {:induction false} KeepFromEarlier(rows: seq<Request>, s: int, t: int)
    requires t <= s
    ensures KeepFrom(KeepFrom(rows, s), t) == KeepFrom(rows, s)
  {
    if rows != [] {
      var front, last := rows[..|rows| - 1], rows[|rows| - 1];
      KeepFromEarlier(front, s, t);
      if last.at >= s {
        KeepFromAppends(KeepFrom(front, s), last, t);
      }
    }
  }

  lemma SameForTable(requests: seq<Request>, rows: seq<Request>, history: seq<Request>, r: Request)
    requires TableAgrees(requests, rows, history) && Ascending(TimesOf(history, r.phone))
    requires forall q | q in requests :: r.at >= q.at - 1
    ensures TableVerdict(rows, r) == FullVerdict(history, r)
  {
    hide TableVerdict, FullVerdict, TimesOf, LaterThan, KeepFrom;
    if rows != history {
      var q :| q in requests && rows == KeepFrom(history, q.at - WINDOW_MS);
      PruningIsInvisible(history, q.at - WINDOW_MS, r.phone, r.at - WINDOW_MS);
    }
    NewestFirst(rows, history, r);
  }

  lemma TableStillAgrees(requests: seq<Request>, rows: seq<Request>, history: seq<Request>, r: Request)
    requires TableAgrees(requests, rows, history) && TableVerdict(rows, r) == FullVerdict(history, r)
    requires forall q | q in requests :: r.at >= q.at - 1
    ensures TableAgrees(requests + [r], TableStep(rows, r), FullStep(history, r))
  {
    hide TableVerdict, FullVerdict, KeepFrom;
    var start, requests' := r.at - WINDOW_MS, requests + [r];
    assert r in requests';
    if rows != history {
      var q :| q in requests && rows == KeepFrom(history, q.at - WINDOW_MS);
      assert q in requests';
      if FullVerdict(history, r).Accepted? {
        KeepFromAppends(rows, r, start);
        KeepFromAppends(history, r, start);
        KeepFromAppends(history, r, q.at - WINDOW_MS);
        if start >= q.at - WINDOW_MS {
          KeepFromTwice(history, q.at - WINDOW_MS, start);
        } else {
          KeepFromEarlier(history, q.at - WINDOW_MS, start);
        }
      }
    }
  }

  lemma {:induction false} TableKeepsAgreeing(requests: seq<Request>)
    requires StepsBack(requests, 1)
    ensures TableAgrees(requests, TableRun(requests), FullRun(requests))
  {
    if requests != [] {
      var front, last := requests[..|requests| - 1], requests[|requests| - 1];
      TableKeepsAgreeing(front);
      NextStillAgrees(front, last);
      assert requests == front + [last];
    }
  }

  lemma NextStillAgrees(requests: seq<Request>, r: Request)
    requires TableAgrees(requests, TableRun(requests), FullRun(requests))
    requires forall q | q in requests :: r.at >= q.at - 1
    ensures TableAgrees(requests + [r], TableStep(TableRun(requests), r), FullStep(FullRun(requests), r))
  {
    hide TableAgrees, TableRun, FullRun, TableStep, FullStep, TableVerdict, FullVerdict, TimesOf;
    AscendingTimes(requests, r.phone);
    SameForTable(requests, TableRun(requests), FullRun(requests), r);
    TableStillAgrees(requests, TableRun(requests), FullRun(requests), r);
  }

  /** As long as the clock steps back by a millisecond at most, pruning is invisible in every verdict. */
  lemma {:induction false} TableAnswersAsHistory(requests: seq<Request>)
    requires StepsBack(requests, 1)
    ensures TableVerdicts(requests) == FullVerdicts(requests)
  {
    hide FullVerdict, TableVerdict, FullRun, TableRun, TableAgrees;
    if requests != [] {
      var front, last := requests[..|requests| - 1], requests[|requests| - 1];
      TableAnswersAsHistory(front);
      TableKeepsAgreeing(front);
      AscendingTimes(front, last.phone);
      SameForTable(front, TableRun(front), FullRun(front), last);
    }
  }

  // ---------------------------------------------------------------- two milliseconds are too many

  /** The first `n` requests of one phone, ten minutes apart. */
  function TenMinutesApart(n: nat): seq<Request> {
    seq(n, i => Request("a", i * 600_000))
  }

  const OTHER_PHONE := Request("b", 3_600_001)
  const STEPPED_BACK := Request("a", 3_599_999)

  /** The other phone's request prunes the first row, one millisecond too old for its own window. */
  function SteppingBack(): seq<Request> {
    TenMinutesApart(5) + [OTHER_PHONE] + [STEPPED_BACK]
  }

  lemma {:induction false} KeepsAll(rows: seq<Request>, t: int)
    requires forall r | r in rows :: r.at >= t
    ensures KeepFrom(rows, t) == rows
  {
    if rows != [] {
      KeepsAll(rows[..|rows| - 1], t);
    }
  }

  lemma {:induction false} TimesTenMinutesApart(n: nat)
    ensures TimesOf(TenMinutesApart(n), "a") == seq(n, i => i * 600_000) && TimesOf(TenMinutesApart(n), "b") == []
  {
    if n > 0 {
      TimesTenMinutesApart(n - 1);
      assert TenMinutesApart(n)[..n - 1] == TenMinutesApart(n - 1);
    }
  }

  lemma NextIsAccepted(n: nat)
    requires n < 5 && FullRun(TenMinutesApart(n)) == TenMinutesApart(n)
    ensures var rows, r := TenMinutesApart(n), Request("a", n * 600_000);
      FullVerdict(rows, r) == TableVerdict(rows, r) == Accepted
  {
    hide FullVerdict, TableVerdict, FullRun, TimesOf;
    var rows, r := TenMinutesApart(n), Request("a", n * 600_000);
    TimesTenMinutesApart(n);
    VerdictMeaning(rows, r);
    AscendingTimes(rows, "a");
    NewestFirst(rows, rows, r);
  }

  lemma {:induction false} FiveAreAccepted(n: nat)
    requires n <= 5
    ensures FullRun(TenMinutesApart(n)) == TenMinutesApart(n) == TableRun(TenMinutesApart(n))
  {
    hide FullVerdict, TableVerdict, KeepFrom;
    if n > 0 {
      var front, last := TenMinutesApart(n - 1), Request("a", (n - 1) * 600_000);
      FiveAreAccepted(n - 1);
      NextIsAccepted(n - 1);
      assert TenMinutesApart(n)[..n - 1] == front && TenMinutesApart(n) == front + [last];
      KeepsAll(TenMinutesApart(n), last.at - WINDOW_MS);
    }
  }

  lemma OtherPhonePrunes()
    ensures FullRun(TenMinutesApart(5) + [OTHER_PHONE]) == TenMinutesApart(5) + [OTHER_PHONE]
    ensures TableRun(TenMinutesApart(5) + [OTHER_PHONE]) == TenMinutesApart(5)[1..] + [OTHER_PHONE]
  {
    var five := TenMinutesApart(5);
    FiveAreAccepted(5);
    TimesTenMinutesApart(5);
    assert (five + [OTHER_PHONE])[..5] == five;
    VerdictMeaning(five, OTHER_PHONE);
    AscendingTimes(five, "b");
    NewestFirst(five, five, OTHER_PHONE);
    KeepFromAppends(five, OTHER_PHONE, 1);
    DropsTheFirst(five);
  }

  lemma DropsTheFirst(rows: seq<Request>)
    requires rows == TenMinutesApart(5)
    ensures KeepFrom(rows, 1) == rows[1..]
  {
    assert rows[..1] == [Request("a", 0)] && KeepFrom(rows[..1], 1) == [];
    KeepFromSplits(rows[..1], rows[1..], 1);
    KeepsAll(rows[1..], 1);
    assert rows[..1] + rows[1..] == rows;
  }

  lemma {:induction false} KeepFromSplits(a: seq<Request>, b: seq<Request>, t: int)
    ensures KeepFrom(a + b, t) == KeepFrom(a, t) + KeepFrom(b, t)
  {
    if b == [] {
      assert a + b == a;
    } else {
      var front, last := b[..|b| - 1], b[|b| - 1];
      KeepFromSplits(a, front, t);
      assert a + b == (a + front) + [last];
      KeepFromAppends(a + front, last, t);
    }
  }

  lemma {:induction false} TimesOfSplits(a: seq<Request>, b: seq<Request>, phone: string)
    ensures TimesOf(a + b, phone) == TimesOf(a, phone) + TimesOf(b, phone)
  {
    if b == [] {
      assert a + b == a;
    } else {
      var front, last := b[..|b| - 1], b[|b| - 1];
      TimesOfSplits(a, front, phone);
      assert a + b == (a + front) + [last];
      TimesOfAppends(a + front, last, phone);
    }
  }

  /** Four rows are left in the table, so the sixth request of the phone is accepted; the history counts five. */
  lemma TheyPart()
    ensures TableVerdict(TableRun(TenMinutesApart(5) + [OTHER_PHONE]), STEPPED_BACK) == Accepted
    ensures FullVerdict(FullRun(TenMinutesApart(5) + [OTHER_PHONE]), STEPPED_BACK) == Limit
  {
    var five, six := TenMinutesApart(5), TenMinutesApart(5) + [OTHER_PHONE];
    OtherPhonePrunes();
    TimesTenMinutesApart(5);
    TimesOfAppends(five, OTHER_PHONE, "a");
    VerdictMeaning(six, STEPPED_BACK);
    TimesOfAppends(five[1..], OTHER_PHONE, "a");
    assert TimesOf(five[..1], "a") == [0];
    TimesOfSplits(five[..1], five[1..], "a");
    assert five[..1] + five[1..] == five;
    FourAreAccepted(TimesOf(five[1..], "a"));
  }

  lemma FourAreAccepted(times: seq<int>)
    requires [0] + times == seq(5, i => i * 600_000)
    ensures var recent := LaterThan(times, -1); |recent| < 5 && (recent != [] ==> Newest(recent) == 2_400_000)
  {
    assert forall i | 0 <= i < 4 :: times[i] == ([0] + times)[i + 1];
    assert |times| == 4;
    LaterThanIsSuffix(times, -1);
    if LaterThan(times, -1) != [] {
      NewestOfTail(times, LaterThan(times, -1), -1);
    }
  }

  lemma SteppingBackSeparates()
    ensures StepsBack(SteppingBack(), 2)
    ensures TableVerdicts(SteppingBack()) != MemoryVerdicts(SteppingBack())
  {
    hide TableVerdict, FullVerdict, TableRun, FullRun;
    var six := TenMinutesApart(5) + [OTHER_PHONE];
    var all := SteppingBack();
    assert all[..6] == six;
    TheyPart();
    ListsAnswerAsHistory(all);
    assert TableVerdicts(all)[|TableVerdicts(six)|] == Accepted;
    VerdictPerRequest(six);
  }

  lemma {:induction false} VerdictPerRequest(requests: seq<Request>)
    ensures |TableVerdicts(requests)| == |FullVerdicts(requests)| == |requests|
  {
    if requests != [] {
      VerdictPerRequest(requests[..|requests| - 1]);
    }
  }

  lemma SmallerStepsBack(requests: seq<Request>, b: int, c: int)
    requires StepsBack(requests, b) && b <= c
    ensures StepsBack(requests, c)
  {
  }

  /**
   The pruned table and the lists give every request of every sequence over any number of phones the same
   verdict, if and only if the clock never steps back by more than one millisecond.
   */
  lemma SameVerdictsExactlyWithinOneMillisecond(b: int)
    ensures (forall requests | StepsBack(requests, b) :: TableVerdicts(requests) == MemoryVerdicts(requests)) <==>
      b <= 1
  {
    if b <= 1 {
      forall requests | StepsBack(requests, b) ensures TableVerdicts(requests) == MemoryVerdicts(requests) {
        SmallerStepsBack(requests, b, 1);
        TableAnswersAsHistory(requests);
        ListsAnswerAsHistory(requests);
      }
    } else {
      SteppingBackSeparates();
      SmallerStepsBack(SteppingBack(), 2, b);
    }
  }

  // ---------------------------------------------------------------- the two implementations

  class ServiceRequestRepository {
    var attempts: seq<Request>

    constructor ()
      ensures attempts == []
    {
      attempts := [];
    }

    /** The query over the table, newest first, then the insert and the prune. */
    method ReserveOtpRequest(phone: string, requestedAt: int) returns (verdict: Verdict)
      modifies this
      ensures verdict == TableVerdict(old(attempts), Request(phone, requestedAt))
      ensures attempts == TableStep(old(attempts), Request(phone, requestedAt))
    {
      var windowStart := requestedAt - WINDOW_MS;
      var recent := SelectRecent(attempts, phone, windowStart);
      if |recent| > 0 && requestedAt - Newest(recent) < COOLDOWN_MS { return Cooldown; }
      if |recent| >= MAX_PER_WINDOW { return Limit; }
      attempts := attempts + [Request(phone, requestedAt)];
      attempts := DeleteBefore(attempts, windowStart);
      return Accepted;
    }

    static method SelectRecent(rows: seq<Request>, phone: string, windowStart: int) returns (recent: seq<int>)
      ensures recent == LaterThan(TimesOf(rows, phone), windowStart)
    {
      recent := [];
      for i := 0 to |rows|
        invariant recent == LaterThan(TimesOf(rows[..i], phone), windowStart)
      {
        TimesOfAppends(rows[..i], rows[i], phone);
        assert rows[..i] + [rows[i]] == rows[..i + 1];
        if rows[i].phone == phone {
          LaterThanAppends(TimesOf(rows[..i], phone), rows[i].at, windowStart);
          if rows[i].at > windowStart { recent := recent + [rows[i].at]; }
        }
      }
      assert rows[..|rows|] == rows;
    }

    static method DeleteBefore(rows: seq<Request>, windowStart: int) returns (kept: seq<Request>)
      ensures kept == KeepFrom(rows, windowStart)
    {
      kept := [];
      for i := 0 to |rows|
        invariant kept == KeepFrom(rows[..i], windowStart)
      {
        KeepFromAppends(rows[..i], rows[i], windowStart);
        assert rows[..i] + [rows[i]] == rows[..i + 1];
        if !(rows[i].at < windowStart) { kept := kept + [rows[i]]; }
      }
      assert rows[..|rows|] == rows;
    }
  }

  predicate Digit(c: char) { '0' <= c <= '9' }

  /** A Saudi mobile number: +9665 and eight digits. */
  predicate SaudiMobile(phone: string) {
    |phone| == 13 && phone[..5] == "+9665" && forall i | 5 <= i < 13 :: Digit(phone[i])
  }

  class CustomerAuthService {
    var requestTimesByPhone: map<string, seq<int>>

    constructor ()
      ensures requestTimesByPhone == map[]
    {
      requestTimesByPhone := map[];
    }

    /** The branch without a persistent store. */
    method RequestOtp(phone: string, requestedAt: int) returns (verdict: Verdict)
      modifies this
      ensures verdict == InvalidNumber <==> !SaudiMobile(phone)
      ensures !SaudiMobile(phone) ==> requestTimesByPhone == old(requestTimesByPhone)
      ensures SaudiMobile(phone) ==>
        && verdict == MemoryVerdict(old(requestTimesByPhone), Request(phone, requestedAt))
        && requestTimesByPhone == MemoryStep(old(requestTimesByPhone), Request(phone, requestedAt))
    {
      if !SaudiMobile(phone) { return InvalidNumber; }
      var times := ListOf(requestTimesByPhone, phone);
      var recent: seq<int> := [];
      for i := 0 to |times|
        invariant recent == LaterThan(times[..i], requestedAt - WINDOW_MS)
        invariant requestTimesByPhone == old(requestTimesByPhone)
      {
        LaterThanAppends(times[..i], times[i], requestedAt - WINDOW_MS);
        assert times[..i] + [times[i]] == times[..i + 1];
        if requestedAt - times[i] < WINDOW_MS { recent := recent + [times[i]]; }
      }
      assert times[..|times|] == times;
      if |recent| > 0 && requestedAt - recent[|recent| - 1] < COOLDOWN_MS { return Cooldown; }
      if |recent| >= MAX_PER_WINDOW { return Limit; }
      requestTimesByPhone := requestTimesByPhone[phone := recent + [requestedAt]];
      return Accepted;
    }
  }
}
