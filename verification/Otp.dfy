/**
 One-time codes in a keyed store with expiry. Every attempt writes the entry
 back with one more attempt and a renewed time to live. Hash comparison accepts
 exactly the code that was hashed.
 */
module Otp {
  import opened Common

  const OTP_TTL_SECONDS := 600
  const MAX_ATTEMPTS := 3

  datatype OtpEntry = OtpEntry(code: int, attempts: nat, expiresAt: int)

  datatype Verdict = Valid | ExpiredOrNotFound | TooManyAttempts | Invalid(left: int)

  /** The entry a `get` sees. */
  function Visible(entry: Option<OtpEntry>, now: int): Option<OtpEntry> {
    if entry.Some? && now < entry.value.expiresAt then entry else None
  }

  function Generated(code: int, now: int): Option<OtpEntry> {
    Some(OtpEntry(code, 0, now + OTP_TTL_SECONDS))
  }

  function VerdictOf(entry: Option<OtpEntry>, now: int, input: int): Verdict {
    match Visible(entry, now)
    case None => ExpiredOrNotFound
    case Some(e) =>
      if e.attempts >= MAX_ATTEMPTS then TooManyAttempts
      else if input == e.code then Valid
      else Invalid(MAX_ATTEMPTS - e.attempts - 1)
  }

  function AfterVerify(entry: Option<OtpEntry>, now: int, input: int): Option<OtpEntry> {
    match VerdictOf(entry, now, input)
    case Valid => None
    case Invalid(_) => Some(OtpEntry(entry.value.code, entry.value.attempts + 1, now + OTP_TTL_SECONDS))
    case _ => Visible(entry, now)
  }

  class OtpStore {
    var entries: map<string, OtpEntry>
    var now: int

    constructor ()
      ensures entries == map[] && now == 0
    {
      entries, now := map[], 0;
    }

    function At(key: string): Option<OtpEntry>
      reads this
    {
      Visible(if key in entries then Some(entries[key]) else None, now)
    }

    method GenerateOtp(key: string, code: int)
      modifies this`entries
      ensures entries == old(entries)[key := OtpEntry(code, 0, now + 600)]
    {
      entries := entries[key := OtpEntry(code, 0, now + OTP_TTL_SECONDS)];
    }

    method VerifyOtp(key: string, input: int) returns (v: Verdict)
      modifies this`entries
      ensures v == ExpiredOrNotFound <==> key !in old(entries) || now >= old(entries)[key].expiresAt
      ensures v == TooManyAttempts <==> key in old(entries) && now < old(entries)[key].expiresAt && old(entries)[key].attempts >= 3
      ensures v == Valid <==>
                && key in old(entries) && now < old(entries)[key].expiresAt
                && old(entries)[key].attempts < 3 && old(entries)[key].code == input
      ensures v == Valid ==> entries == old(entries) - {key}
      ensures v.Invalid? ==>
                var e := old(entries)[key];
                && v.left == 3 - e.attempts - 1 && e.code != input
                && entries == old(entries)[key := OtpEntry(e.code, e.attempts + 1, now + 600)]
      ensures v == ExpiredOrNotFound || v == TooManyAttempts ==> entries == old(entries)
      ensures v == VerdictOf(old(At(key)), now, input) && At(key) == AfterVerify(old(At(key)), now, input)
      ensures forall k :: k != key ==> At(k) == old(At(k))
    {
      if key !in entries || now >= entries[key].expiresAt {
        return ExpiredOrNotFound;
      }
      var raw := entries[key];
      if raw.attempts >= MAX_ATTEMPTS {
        return TooManyAttempts;
      }
      entries := entries[key := OtpEntry(raw.code, raw.attempts + 1, now + OTP_TTL_SECONDS)];
      if input != raw.code {
        return Invalid(MAX_ATTEMPTS - raw.attempts - 1);
      }
      entries := entries - {key};
      v := Valid;
    }
  }

  // ---------------------------------------------------------------- the life of one code

  datatype Action = Wait(seconds: nat) | Try(input: int)

  /** One code's history: how often it was compared and how often it was accepted. */
  datatype Life = Life(now: int, entry: Option<OtpEntry>, comparisons: nat, accepts: nat)

  function Born(code: int, now: int): Life {
    Life(now, Generated(code, now), 0, 0)
  }

  function Act(l: Life, a: Action): Life {
    match a
    case Wait(seconds) => l.(now := l.now + seconds)
    case Try(input) =>
      var v := VerdictOf(l.entry, l.now, input);
      Life(l.now, AfterVerify(l.entry, l.now, input),
           l.comparisons + (if v.Valid? || v.Invalid? then 1 else 0), l.accepts + (if v.Valid? then 1 else 0))
  }

  function Live(l: Life, actions: seq<Action>): Life
    decreases |actions|
  {
    if actions == [] then l else Live(Act(l, actions[0]), actions[1..])
  }

  ghost predicate LifeOk(l: Life, born: int) {
    && l.comparisons <= MAX_ATTEMPTS && l.accepts <= 1
    && match Visible(l.entry, l.now)
       case None => true
       case Some(e) =>
         && e.attempts == l.comparisons && l.accepts == 0
         && e.expiresAt <= born + OTP_TTL_SECONDS * (e.attempts + 1)
  }

  lemma {:induction false} LifeStays(l: Life, actions: seq<Action>, born: int)
    requires LifeOk(l, born)
    ensures LifeOk(Live(l, actions), born)
    decreases |actions|
  {
    if actions != [] {
      assert LifeOk(Act(l, actions[0]), born);
      LifeStays(Act(l, actions[0]), actions[1..], born);
    }
  }

  /**
   A generated code is compared at most three times and accepted at most once,
   and though every attempt renews its ten minutes it is gone within forty.
   */
  lemma CodeIsBounded(code: int, born: int, actions: seq<Action>)
    ensures var l := Live(Born(code, born), actions);
            && l.comparisons <= 3 && l.accepts <= 1
            && (l.accepts == 1 ==> Visible(l.entry, l.now) == None)
            && (l.now >= born + 2400 ==> Visible(l.entry, l.now) == None)
  {
    LifeStays(Born(code, born), actions, born);
  }

  lemma TwoActs(l: Life, wrong: int, rest: seq<Action>)
    ensures Live(l, [Wait(599), Try(wrong)] + rest) == Live(Act(Act(l, Wait(599)), Try(wrong)), rest)
    ensures [Wait(599), Try(wrong)] + rest == [Wait(599)] + ([Try(wrong)] + rest)
  {
    var all := [Wait(599), Try(wrong)] + rest;
    assert all[1..] == [Try(wrong)] + rest && ([Try(wrong)] + rest)[1..] == rest;
  }

  /** Whether the code can still be tried. */
  predicate Tryable(l: Life) {
    Visible(l.entry, l.now).Some? && l.comparisons < 3
  }

  lemma {:induction false} CodeStays(code: int, l: Life, actions: seq<Action>)
    requires Visible(l.entry, l.now).Some? ==> l.entry.value.code == code
    ensures var end := Live(l, actions); Visible(end.entry, end.now).Some? ==> end.entry.value.code == code
    decreases |actions|
  {
    if actions != [] {
      CodeStays(code, Act(l, actions[0]), actions[1..]);
    }
  }

  /**
   After any history a try is accepted if and only if its input is the generated
   code, the entry has not expired and fewer than three tries were compared
   before. An accepted try removes the entry; a wrong one is counted and renews it.
   */
  lemma AcceptedIff(code: int, born: int, actions: seq<Action>, input: int)
    ensures var l := Live(Born(code, born), actions);
            var after := Act(l, Try(input));
            && (after.accepts == l.accepts + 1 <==> Tryable(l) && input == code)
            && (Tryable(l) && input == code ==> after.entry == None)
            && (Tryable(l) && input != code ==>
                  after.accepts == l.accepts && after.entry == Some(OtpEntry(code, l.comparisons + 1, l.now + 600)))
            && (!Tryable(l) ==> after.comparisons == l.comparisons && after.accepts == l.accepts)
  {
    LifeStays(Born(code, born), actions, born);
    CodeStays(code, Born(code, born), actions);
  }

  /** A fresh code is there for ten minutes. */
  lemma RightCodeAccepted(code: int, born: int, seconds: nat)
    ensures Tryable(Live(Born(code, born), [Wait(seconds)])) <==> seconds < 600
    ensures Tryable(Live(Born(code, born), [Wait(seconds)])) ==>
              Act(Live(Born(code, born), [Wait(seconds)]), Try(code)) == Life(born + seconds, None, 1, 1)
  {
    assert [Wait(seconds)][1..] == [];
    assert Live(Born(code, born), [Wait(seconds)]) == Act(Born(code, born), Wait(seconds));
  }

  /** The bound is tight: tried at the last second each time, the entry outlives 2390 seconds. */
  lemma NearlyFortyMinutes(code: int, wrong: int)
    requires wrong != code
    ensures var l := Live(Born(code, 0), [Wait(599), Try(wrong), Wait(599), Try(wrong), Wait(599), Try(wrong), Wait(599)]);
            l.now == 2396 && Visible(l.entry, l.now) == Some(OtpEntry(code, 3, 2397))
  {
    var l0 := Born(code, 0);
    var l2 := Act(Act(l0, Wait(599)), Try(wrong));
    var l4 := Act(Act(l2, Wait(599)), Try(wrong));
    var l6 := Act(Act(l4, Wait(599)), Try(wrong));
    calc {
      Live(l0, [Wait(599), Try(wrong), Wait(599), Try(wrong), Wait(599), Try(wrong), Wait(599)]);
      { TwoActs(l0, wrong, [Wait(599), Try(wrong), Wait(599), Try(wrong), Wait(599)]); }
      Live(l2, [Wait(599), Try(wrong), Wait(599), Try(wrong), Wait(599)]);
      { TwoActs(l2, wrong, [Wait(599), Try(wrong), Wait(599)]); }
      Live(l4, [Wait(599), Try(wrong), Wait(599)]);
      { TwoActs(l4, wrong, [Wait(599)]); }
      Live(l6, [Wait(599)]);
      { assert [Wait(599)][1..] == []; }
      Act(l6, Wait(599));
    }
  }
}
