/** The text of a notification's dedupe key, and why two events never share one. */
module DedupeKeys {
  import opened Domain
  import opened EventLog
  import opened Marketplace

  function Digit(d: nat): char
    requires d < 10
  {
    ['0', '1', '2', '3', '4', '5', '6', '7', '8', '9'][d]
  }

  function Decimal(n: nat): string {
    if n < 10 then [Digit(n)] else Decimal(n / 10) + [Digit(n % 10)]
  }

  function StatusText(s: Status): string {
    match s
    case PendingDispatch => "pending_dispatch"
    case Assigned => "assigned"
    case OnTheWay => "on_the_way"
    case InProgress => "in_progress"
    case Completed => "completed"
    case Cancelled => "cancelled"
  }

  function KindText(n: Notice): string {
    match n
    case RequestReceived => "request_created"
    case Invitation(_) => "opportunity_invited"
    case QuoteReceived(_) => "quote_received"
    case AssignedProvider(_) => "provider_assigned"
    case AssignmentConfirmed => "assignment_confirmed"
    case LostOpportunity(_) => "opportunity_closed"
    case StatusChanged(_) => "status_updated"
  }

  /** What follows the request id, if anything does. */
  function Tail(n: Notice): Option<string> {
    match n
    case RequestReceived => None
    case Invitation(p) => Some(p.name)
    case QuoteReceived(k) => Some(Decimal(k))
    case AssignedProvider(p) => Some(p.name)
    case AssignmentConfirmed => None
    case LostOpportunity(p) => Some(p.name)
    case StatusChanged(s) => Some(StatusText(s))
  }

  function AfterKind(id: nat, n: Notice): string {
    match Tail(n)
    case None => Decimal(id)
    case Some(tail) => Decimal(id) + ":" + tail
  }

  function Key(id: nat, n: Notice): string {
    KindText(n) + ":" + AfterKind(id, n)
  }

  // ---------------------------------------------------------------- injectivity

  lemma DigitInjective(a: nat, b: nat)
    requires a < 10 && b < 10 && Digit(a) == Digit(b)
    ensures a == b
  {
  }

  lemma {:induction false} DecimalInjective(m: nat, n: nat)
    requires Decimal(m) == Decimal(n)
    ensures m == n
    decreases m
  {
    var s := Decimal(m);
    if m < 10 || n < 10 {
      DecimalLength(m);
      DecimalLength(n);
      DigitInjective(m % 10, n % 10);
    } else {
      assert s[..|s| - 1] == Decimal(m / 10) == Decimal(n / 10);
      DecimalInjective(m / 10, n / 10);
      assert s[|s| - 1] == Digit(m % 10) == Digit(n % 10);
      DigitInjective(m % 10, n % 10);
    }
  }

  lemma DecimalLength(n: nat)
    ensures |Decimal(n)| >= 1 && (|Decimal(n)| == 1 <==> n < 10)
    ensures Decimal(n)[|Decimal(n)| - 1] == Digit(n % 10)
  {
  }

  lemma {:induction false} DecimalHasNoColon(n: nat)
    ensures ':' !in Decimal(n)
  {
    if n >= 10 {
      DecimalHasNoColon(n / 10);
    }
  }

  lemma SplitAtColon(a: string, b: string, a': string, b': string)
    requires ':' !in a && ':' !in a' && a + ":" + b == a' + ":" + b'
    ensures a == a' && b == b'
  {
    var s := a + ":" + b;
    assert s[|a|] == ':' && s[|a'|] == ':';
    assert forall k | 0 <= k < |a| :: s[k] == a[k];
    assert forall k | 0 <= k < |a'| :: s[k] == a'[k];
    assert |a| == |a'|;
    assert a == s[..|a|] && a' == s[..|a'|];
    assert b == s[|a| + 1..] && b' == s[|a'| + 1..];
  }

  lemma KindHasNoColon(n: Notice)
    ensures ':' !in KindText(n)
  {
  }

  predicate SameKind(n: Notice, n': Notice) {
    KindText(n) == KindText(n')
  }

  lemma KindsDiffer(n: Notice, n': Notice)
    requires SameKind(n, n')
    ensures n.RequestReceived? == n'.RequestReceived? && n.Invitation? == n'.Invitation?
    ensures n.QuoteReceived? == n'.QuoteReceived? && n.AssignedProvider? == n'.AssignedProvider?
    ensures n.AssignmentConfirmed? == n'.AssignmentConfirmed? && n.LostOpportunity? == n'.LostOpportunity?
    ensures n.StatusChanged? == n'.StatusChanged?
  {
    var s, s' := KindText(n), KindText(n');
    assert |s| == |s'| && s[0] == s'[0];
  }

  lemma StatusesDiffer(s: Status, s': Status)
    requires StatusText(s) == StatusText(s')
    ensures s == s'
  {
    assert |StatusText(s)| == |StatusText(s')| && StatusText(s)[0] == StatusText(s')[0];
  }

  /** A dedupe key names one request and one semantic event, whatever characters a provider id holds. */
  lemma KeyInjective(id: nat, n: Notice, id': nat, n': Notice)
    requires Key(id, n) == Key(id', n')
    ensures id == id' && n == n'
  {
    hide KindText, Decimal, StatusText;
    KindHasNoColon(n);
    KindHasNoColon(n');
    SplitAtColon(KindText(n), AfterKind(id, n), KindText(n'), AfterKind(id', n'));
    KindsDiffer(n, n');
    assert Tail(n).Some? == Tail(n').Some?;
    DecimalHasNoColon(id);
    DecimalHasNoColon(id');
    if Tail(n).Some? {
      SplitAtColon(Decimal(id), Tail(n).value, Decimal(id'), Tail(n').value);
    }
    DecimalInjective(id, id');
    match n {
      case QuoteReceived(k) => DecimalInjective(k, n'.quote);
      case StatusChanged(s) => StatusesDiffer(s, n'.status);
      case _ =>
    }
  }

  // ---------------------------------------------------------------- the text itself

  /** What decimal digits denote. */
  function Denoted(digits: string): int {
    if digits == [] then 0 else 10 * Denoted(digits[..|digits| - 1]) + (digits[|digits| - 1] as int - '0' as int)
  }

  lemma DigitDenotes(d: nat)
    requires d < 10
    ensures Digit(d) as int - '0' as int == d
  {
  }

  lemma {:induction false} DecimalDenotes(n: nat)
    ensures Denoted(Decimal(n)) == n
  {
    hide Digit;
    DigitDenotes(n % 10);
    if n >= 10 {
      DecimalDenotes(n / 10);
      var s := Decimal(n / 10);
      assert (s + [Digit(n % 10)])[..|s|] == s;
    } else {
      assert [Digit(n)][..0] == [];
    }
  }

  /** Kind, request and subject, in this order, with a colon between. */
  lemma KeyText(id: nat, n: Notice)
    ensures n == RequestReceived ==> Key(id, n) == "request_created:" + Decimal(id)
    ensures n == AssignmentConfirmed ==> Key(id, n) == "assignment_confirmed:" + Decimal(id)
    ensures n.Invitation? ==> Key(id, n) == "opportunity_invited:" + (Decimal(id) + ":" + n.provider.name)
    ensures n.QuoteReceived? ==> Key(id, n) == "quote_received:" + (Decimal(id) + ":" + Decimal(n.quote))
    ensures n.AssignedProvider? ==> Key(id, n) == "provider_assigned:" + (Decimal(id) + ":" + n.provider.name)
    ensures n.LostOpportunity? ==> Key(id, n) == "opportunity_closed:" + (Decimal(id) + ":" + n.provider.name)
    ensures n.StatusChanged? ==> Key(id, n) == "status_updated:" + (Decimal(id) + ":" + StatusText(n.status))
  {
    hide Decimal, StatusText;
  }
}
