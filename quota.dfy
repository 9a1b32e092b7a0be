/**
 The quota decision of `can_process_voice`: given the tier flag, the
 seconds already used today and the requested duration, admit or deny and
 say why. Pure arithmetic and branching; the ledger lookups that feed it
 live in module Ledger.
 */
module Quota {
  import opened Wrappers
  import Decimal

  /** The standard tier's daily budget, in seconds (five minutes). */
  const DailyLimit: int := 300

  /** Why a request was admitted or denied. */
  datatype Reason =
    | Pro                                   // unlimited tier
    | Exceeded                              // standard tier, budget already used up
    | TooLong(minutes: nat, seconds: nat)   // standard tier, what is left is not enough
    | Allowed(left: nat)                    // standard tier, seconds left after this request

  datatype Decision = Decision(admitted: bool, reason: Reason)

  /**
   Admit or deny one request. `remaining` may be negative: nothing stops the
   ledger from recording more than the budget.
   */
  function Decide(isPro: bool, dailyUsage: int, duration: int): (d: Decision)
    // the unlimited tier is always admitted, with its own reason
    ensures d.reason.Pro? <==> isPro
    ensures isPro ==> d.admitted
    // a standard request is admitted exactly when it fits in what is left of the budget
    ensures !isPro ==> (d.admitted <==> duration <= DailyLimit - dailyUsage)
    // the reason agrees with the verdict
    ensures d.admitted <==> d.reason.Pro? || d.reason.Allowed?
    // a denial with nothing left says the budget is exhausted
    ensures d.reason.Exceeded? <==> !isPro && !d.admitted && DailyLimit - dailyUsage <= 0
    // a denial with something left reports it as minutes and seconds
    ensures d.reason.TooLong? <==> !isPro && 0 < DailyLimit - dailyUsage < duration
    ensures d.reason.TooLong? ==>
      d.reason.seconds < 60 && d.reason.minutes * 60 + d.reason.seconds == DailyLimit - dailyUsage
    // an admission reports what is left once this request is charged
    ensures d.reason.Allowed? ==> d.reason.left == DailyLimit - dailyUsage - duration
  {
    if isPro then Decision(true, Pro)
    else
      var remaining := DailyLimit - dailyUsage;
      if duration > remaining then
        if remaining <= 0 then Decision(false, Exceeded)
        // remaining is positive here, so Python's floor division and modulo agree with Dafny's
        else Decision(false, TooLong(remaining / 60, remaining % 60))
      else Decision(true, Allowed(remaining - duration))
  }

  const ProText := "PRO user - unlimited access"
  // written in two pieces: the verifier sees through short literals only
  const ExceededText := "Daily limit exceeded (5 minutes). " + "Upgrade to PRO for unlimited access."
  const TooLongPrefix := "Voice message too long. You have "
  const AllowedPrefix := "Processing allowed. "
  const RemainingSuffix := "s remaining today."

  /** The text the bot shows for a reason. */
  function Render(r: Reason): (text: string)
  {
    match r
    case Pro => ProText
    case Exceeded => ExceededText
    case TooLong(m, s) =>
      TooLongPrefix + Decimal.FromNat(m) + "m " + Decimal.FromNat(s) + RemainingSuffix
    case Allowed(left) => AllowedPrefix + Decimal.FromNat(left) + RemainingSuffix
  }

  /** Recovers the reason from a rendered text, or None when the text is not one. */
  function ParseReason(text: string): (r: Option<Reason>)
  {
    if text == ProText then Some(Pro)
    else if text == ExceededText then Some(Exceeded)
    else if |TooLongPrefix| <= |text| && text[..|TooLongPrefix|] == TooLongPrefix then
      var (m, rest) := Decimal.SplitDigits(text[|TooLongPrefix|..]);
      if m != [] && |rest| >= 2 && rest[..2] == "m " then
        var (s, tail) := Decimal.SplitDigits(rest[2..]);
        if s != [] && tail == RemainingSuffix
        then Some(TooLong(Decimal.Value(m), Decimal.Value(s)))
        else None
      else None
    else if |AllowedPrefix| <= |text| && text[..|AllowedPrefix|] == AllowedPrefix then
      var (n, tail) := Decimal.SplitDigits(text[|AllowedPrefix|..]);
      if n != [] && tail == RemainingSuffix then Some(Allowed(Decimal.Value(n))) else None
    else None
  }

  /** Every reason text reads back as the reason it was rendered from. */
  lemma ParseRender(r: Reason)
    ensures ParseReason(Render(r)) == Some(r)
  {
    match r
    case Pro =>
    case Exceeded =>
    case TooLong(m, s) => ParseTooLong(m, s);
    case Allowed(left) => ParseAllowed(left);
  }

  lemma ParseTooLong(m: nat, s: nat)
    ensures ParseReason(Render(TooLong(m, s))) == Some(TooLong(m, s))
  {
    var dm, ds := Decimal.FromNat(m), Decimal.FromNat(s);
    var after := "m " + (ds + RemainingSuffix);
    var text := Render(TooLong(m, s));
    assert text == TooLongPrefix + (dm + after);
    assert text[0] == 'V';
    assert ProText[0] == 'P' && ProText[1] == 'R' && ExceededText[0] == 'D';
    assert text != ProText && text != ExceededText;
    assert text[..|TooLongPrefix|] == TooLongPrefix;
    assert text[|TooLongPrefix|..] == dm + after;
    Decimal.SplitDigitsAt(dm, after);
    assert after[..2] == "m ";
    assert after[2..] == ds + RemainingSuffix;
    Decimal.SplitDigitsAt(ds, RemainingSuffix);
    Decimal.ValueOfFromNat(m);
    Decimal.ValueOfFromNat(s);
  }

  lemma ParseAllowed(left: nat)
    ensures ParseReason(Render(Allowed(left))) == Some(Allowed(left))
  {
    var dl := Decimal.FromNat(left);
    var text := Render(Allowed(left));
    assert text == AllowedPrefix + (dl + RemainingSuffix);
    assert text[0] == 'P' && text[1] == 'r';
    assert ProText[0] == 'P' && ProText[1] == 'R' && ExceededText[0] == 'D';
    assert text != ProText && text != ExceededText;
    assert text[..|TooLongPrefix|] != TooLongPrefix;
    assert text[..|AllowedPrefix|] == AllowedPrefix;
    assert text[|AllowedPrefix|..] == dl + RemainingSuffix;
    Decimal.SplitDigitsAt(dl, RemainingSuffix);
    Decimal.ValueOfFromNat(left);
  }

  /** Two different reasons never render to the same text. */
  lemma RenderInjective(r1: Reason, r2: Reason)
    requires Render(r1) == Render(r2)
    ensures r1 == r2
  {
    ParseRender(r1);
    ParseRender(r2);
  }

  /** A PRO user is admitted whatever the usage and the duration. */
  lemma ProAlwaysAdmitted(dailyUsage: int, duration: int)
    ensures Decide(true, dailyUsage, duration) == Decision(true, Pro)
    ensures Render(Decide(true, dailyUsage, duration).reason) == "PRO user - unlimited access"
  {
  }

  /** Once the budget is used up, every positive request is denied as exhausted. */
  lemma ExhaustedDeniesAll(dailyUsage: int, duration: int)
    requires dailyUsage >= DailyLimit && duration > 0
    ensures Decide(false, dailyUsage, duration) == Decision(false, Exceeded)
  {
  }

  /** A zero-length request at exactly the limit is still admitted, with nothing left. */
  lemma ZeroAtLimitAdmitted()
    ensures Decide(false, DailyLimit, 0) == Decision(true, Allowed(0))
  {
  }

  /** 280 seconds used, 30 requested: denied, 0m 20s left. */
  lemma TooLongExample()
    ensures Decide(false, 280, 30) == Decision(false, TooLong(0, 20))
    ensures Render(TooLong(0, 20)) == "Voice message too long. You have 0m 20s remaining today."
  {
  }

  /** 280 seconds used, 15 requested: admitted, 5 seconds left. */
  lemma AllowedExample()
    ensures Decide(false, 280, 15) == Decision(true, Allowed(5))
    ensures Render(Allowed(5)) == "Processing allowed. 5s remaining today."
  {
  }
}
