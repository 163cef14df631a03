/**
 * The purpose-aware one-time-code store and the one-shot registration
 * tickets of OtpService. Both are in-memory maps keyed by strings: codes by
 * "phone|purpose", tickets by their random identifier. Time is a number of
 * seconds supplied by the caller; the random code and the ticket identifier
 * are inputs.
 */
module Otp {

  import opened Text
  import opened Phones

  const OtpTtlSeconds: nat := 300
  const ResendCooldownSeconds: nat := 30
  const MaxAttempts: nat := 5
  const RegTicketTtlSeconds: nat := 24 * 60 * 60

  /** One outstanding code; `attempts` counts the wrong guesses made against it. */
  datatype OtpEntry = OtpEntry(code: string, expiry: nat, sentAt: nat, attempts: nat)

  /** A ticket bound to the phone that passed a "register" code check. */
  datatype RegistrationTicket = RegistrationTicket(phone: string, expiry: nat)

  datatype ConsumeResult = Ok | NotFound | PhoneMismatch | Expired {
    /** The name of the Java enum constant. */
    function Name(): string {
      match this
      case Ok => "OK"
      case NotFound => "NOT_FOUND"
      case PhoneMismatch => "PHONE_MISMATCH"
      case Expired => "EXPIRED"
    }
  }

  /** The store key of a phone and a purpose. */
  function Key(rawPhone: string, purpose: string): string {
    NormalizePhone(rawPhone) + "|" + purpose
  }

  /** The position of the first '|' in `s` (`|s|` when there is none). */
  function FirstBar(s: string): (n: nat)
    ensures n <= |s|
  {
    if s == [] || s[0] == '|' then 0 else 1 + FirstBar(s[1..])
  }

  lemma {:induction false} FirstBarOfKey(phone: string, purpose: string)
    requires AllDigits(phone)
    ensures FirstBar(phone + "|" + purpose) == |phone|
  {
    if phone == [] {
      assert phone + "|" + purpose == "|" + purpose;
    } else {
      assert (phone + "|" + purpose)[1..] == phone[1..] + "|" + purpose;
      FirstBarOfKey(phone[1..], purpose);
    }
  }

  /** A normalised phone has no '|', so the key determines both the phone and the purpose. */
  lemma KeyInjective(phone1: string, purpose1: string, phone2: string, purpose2: string)
    requires Key(phone1, purpose1) == Key(phone2, purpose2)
    ensures NormalizePhone(phone1) == NormalizePhone(phone2) && purpose1 == purpose2
  {
    var p1, p2 := NormalizePhone(phone1), NormalizePhone(phone2);
    var k := Key(phone1, purpose1);
    FirstBarOfKey(p1, purpose1);
    FirstBarOfKey(p2, purpose2);
    assert p1 == k[..|p1|] == p2;
    assert purpose1 == k[|p1| + 1..] == purpose2;
  }

  /** Re-normalising an already normalised phone gives the same key. */
  lemma KeyOfNormalized(rawPhone: string, purpose: string)
    ensures Key(NormalizePhone(rawPhone), purpose) == Key(rawPhone, purpose)
  {
    NormalizeIdempotent(rawPhone);
  }

  function Pow10(n: nat): (p: nat)
    ensures p >= 1
  {
    if n == 0 then 1 else 10 * Pow10(n - 1)
  }

  /** The number a string of decimal digits spells. */
  function DigitsValue(s: string): nat
    requires AllDigits(s)
  {
    if s == [] then 0 else 10 * DigitsValue(s[..|s| - 1]) + (s[|s| - 1] as int - '0' as int)
  }

  /** `String.format("%0<width>d", n)`: `n` in decimal, zero-padded to `width` digits. */
  function PadDigits(n: nat, width: nat): (s: string)
    requires n < Pow10(width)
    ensures |s| == width && AllDigits(s)
    ensures DigitsValue(s) == n
  {
    if width == 0 then []
    else
      var s := PadDigits(n / 10, width - 1) + [('0' as int + n % 10) as char];
      assert s[..|s| - 1] == PadDigits(n / 10, width - 1);
      s
  }

  /** `String.format("%06d", n)` for a value of `SecureRandom.nextInt(1_000_000)`. */
  function FormatCode(n: nat): (code: string)
    requires n < 1000000
    ensures |code| == 6 && AllDigits(code)
    ensures DigitsValue(code) == n
  {
    assert Pow10(6) == 1000000 by {
      assert Pow10(2) == 100;
      assert Pow10(4) == 10 * (10 * Pow10(2));
    }
    PadDigits(n, 6)
  }

  /** Distinct random values give distinct codes. */
  lemma FormatCodeInjective(n1: nat, n2: nat)
    requires n1 < 1000000 && n2 < 1000000 && FormatCode(n1) == FormatCode(n2)
    ensures n1 == n2
  {
  }

  /** Keys other than `k` are untouched. */
  predicate SameElsewhere<V(==)>(m: map<string, V>, m': map<string, V>, k: string) {
    m' - {k} == m - {k}
  }

  /** A code was sent for `k` less than the cooldown ago (`now.isBefore(sentAt + 30s)`). */
  predicate InCooldown(m: map<string, OtpEntry>, k: string, now: nat) {
    k in m && now < m[k].sentAt + ResendCooldownSeconds
  }

  /**
   * `sendOtp` on store `m` for key `k` at time `now`, with `random` the value
   * drawn for a fresh code: the code returned and the store afterwards.
   */
  function SendStep(m: map<string, OtpEntry>, k: string, now: nat, random: nat): (r: (string, map<string, OtpEntry>))
    requires random < 1000000
    ensures k in r.1 && r.1[k].code == r.0 && SameElsewhere(m, r.1, k)
    ensures InCooldown(m, k, now) ==> r.1 == m
    ensures !InCooldown(m, k, now) ==>
      r.1[k] == OtpEntry(r.0, now + OtpTtlSeconds, now, 0) && r.0 == FormatCode(random)
  {
    if InCooldown(m, k, now) then (m[k].code, m)
    else
      var code := FormatCode(random);
      (code, m[k := OtpEntry(code, now + OtpTtlSeconds, now, 0)])
  }

  /** A code that can still be used at `now`: not past its expiry (strict `isBefore`) and not exhausted. */
  predicate Live(e: OtpEntry, now: nat) {
    now <= e.expiry && e.attempts < MaxAttempts
  }

  /** `verifyOtp` on store `m` for key `k`, guess `otp`, at time `now`: the verdict and the store afterwards. */
  function VerifyStep(m: map<string, OtpEntry>, k: string, otp: string, now: nat): (r: (bool, map<string, OtpEntry>))
    ensures r.0 <==> k in m && Live(m[k], now) && m[k].code == otp
    ensures SameElsewhere(m, r.1, k)
    ensures k !in m ==> r.1 == m
    ensures k in m && !Live(m[k], now) ==> r.1 == m - {k}
    ensures r.0 ==> r.1 == m - {k}
    ensures k in m && Live(m[k], now) && m[k].code != otp ==>
      k in r.1 && r.1[k] == m[k].(attempts := m[k].attempts + 1)
  {
    if k !in m then (false, m)
    else if m[k].expiry < now then (false, m - {k})
    else if m[k].attempts >= MaxAttempts then (false, m - {k})
    else if m[k].code != otp then (false, m[k := m[k].(attempts := m[k].attempts + 1)])
    else (true, m - {k})
  }

  /** The store after checking each (guess, time) pair of `guesses` in turn against `k`. */
  function VerifyAll(m: map<string, OtpEntry>, k: string, guesses: seq<(string, nat)>): map<string, OtpEntry> {
    if guesses == [] then m
    else VerifyAll(VerifyStep(m, k, guesses[0].0, guesses[0].1).1, k, guesses[1..])
  }

  /** A correct code is accepted once: the same code right after fails. */
  lemma CorrectCodeOnce(m: map<string, OtpEntry>, k: string, otp: string, now: nat, later: nat)
    requires VerifyStep(m, k, otp, now).0
    ensures !VerifyStep(VerifyStep(m, k, otp, now).1, k, otp, later).0
  {
  }

  /** Each wrong guess against a live code adds exactly one attempt and keeps the entry. */
  lemma {:induction false} WrongGuessesAccumulate(m: map<string, OtpEntry>, k: string, guesses: seq<(string, nat)>)
    requires k in m && m[k].attempts + |guesses| <= MaxAttempts
    requires forall i :: 0 <= i < |guesses| ==> guesses[i].0 != m[k].code && guesses[i].1 <= m[k].expiry
    ensures k in VerifyAll(m, k, guesses)
    ensures VerifyAll(m, k, guesses)[k] == m[k].(attempts := m[k].attempts + |guesses|)
  {
    if guesses != [] {
      var m1 := VerifyStep(m, k, guesses[0].0, guesses[0].1).1;
      assert m1[k] == m[k].(attempts := m[k].attempts + 1);
      WrongGuessesAccumulate(m1, k, guesses[1..]);
    }
  }

  /** After five wrong guesses at a fresh code, even the right code fails, and the entry is gone. */
  lemma LockedAfterFiveWrong(m: map<string, OtpEntry>, k: string, guesses: seq<(string, nat)>, now: nat)
    requires k in m && m[k].attempts == 0 && |guesses| == MaxAttempts
    requires forall i :: 0 <= i < |guesses| ==> guesses[i].0 != m[k].code && guesses[i].1 <= m[k].expiry
    ensures VerifyStep(VerifyAll(m, k, guesses), k, m[k].code, now) == (false, VerifyAll(m, k, guesses) - {k})
  {
    WrongGuessesAccumulate(m, k, guesses);
  }

  /** `issueRegistrationTicket`: `ticket` bound to `phone` for 24 hours from `now`. */
  function IssueStep(t: map<string, RegistrationTicket>, ticket: string, phone: string, now: nat): (t': map<string, RegistrationTicket>)
    ensures ticket in t' && t'[ticket] == RegistrationTicket(phone, now + RegTicketTtlSeconds)
    ensures SameElsewhere(t, t', ticket)
  {
    t[ticket := RegistrationTicket(phone, now + RegTicketTtlSeconds)]
  }

  /**
   * `consumeRegistrationTicket`: the ticket is removed whenever it exists,
   * then the phone is checked, then the expiry (strict `isBefore`).
   */
  function ConsumeStep(t: map<string, RegistrationTicket>, ticket: string, phone: string, now: nat): (r: (ConsumeResult, map<string, RegistrationTicket>))
    ensures r.1 == t - {ticket}
    ensures r.0 == NotFound <==> ticket !in t
    ensures r.0 == PhoneMismatch <==> ticket in t && t[ticket].phone != phone
    ensures r.0 == Expired <==> ticket in t && t[ticket].phone == phone && t[ticket].expiry < now
    ensures r.0 == Ok <==> ticket in t && t[ticket].phone == phone && now <= t[ticket].expiry
  {
    if ticket !in t then (NotFound, t)
    else if t[ticket].phone != phone then (PhoneMismatch, t - {ticket})
    else if t[ticket].expiry < now then (Expired, t - {ticket})
    else (Ok, t - {ticket})
  }

  /** A ticket is good for one consumption only: any second attempt finds nothing. */
  lemma ConsumeOnce(t: map<string, RegistrationTicket>, ticket: string, phone1: string, phone2: string, now1: nat, now2: nat)
    ensures ConsumeStep(ConsumeStep(t, ticket, phone1, now1).1, ticket, phone2, now2).0 == NotFound
  {
  }

  /** A fresh ticket is consumed OK by the same phone within 24 hours, and only then. */
  lemma IssueThenConsume(t: map<string, RegistrationTicket>, ticket: string, phone1: string, phone2: string, now1: nat, now2: nat)
    ensures ConsumeStep(IssueStep(t, ticket, phone1, now1), ticket, phone2, now2).0 == Ok
      <==> phone1 == phone2 && now2 <= now1 + RegTicketTtlSeconds
  {
  }

  class OtpService {
    var otpStore: map<string, OtpEntry>
    var registrationTickets: map<string, RegistrationTicket>

    constructor ()
      ensures otpStore == map[] && registrationTickets == map[]
    {
      otpStore := map[];
      registrationTickets := map[];
    }

    /** Returns the stored code during the cooldown, otherwise stores and returns a fresh one. */
    method SendOtp(rawPhone: string, purpose: string, now: nat, random: nat) returns (code: string)
      requires random < 1000000
      modifies this`otpStore
      ensures (code, otpStore) == SendStep(old(otpStore), Key(rawPhone, purpose), now, random)
    {
      var phone := NormalizePhone(rawPhone);
      var k := Key(phone, purpose);
      assert k == Key(rawPhone, purpose) by {
        KeyOfNormalized(rawPhone, purpose);
      }
      if k in otpStore && now < otpStore[k].sentAt + ResendCooldownSeconds {
        code := otpStore[k].code;
        return;
      }
      code := FormatCode(random);
      otpStore := otpStore[k := OtpEntry(code, now + OtpTtlSeconds, now, 0)];
    }

    method VerifyOtp(rawPhone: string, purpose: string, otp: string, now: nat) returns (ok: bool)
      modifies this`otpStore
      ensures (ok, otpStore) == VerifyStep(old(otpStore), Key(rawPhone, purpose), otp, now)
    {
      var phone := NormalizePhone(rawPhone);
      var k := Key(phone, purpose);
      assert k == Key(rawPhone, purpose) by {
        KeyOfNormalized(rawPhone, purpose);
      }
      ghost var spec := VerifyStep(otpStore, k, otp, now);
      if k !in otpStore {
        return false;
      }
      var entry := otpStore[k];
      if entry.expiry < now {
        otpStore := otpStore - {k};
        return false;
      }
      if entry.attempts >= MaxAttempts {
        otpStore := otpStore - {k};
        return false;
      }
      var valid := entry.code == otp;
      if !valid {
        entry := entry.(attempts := entry.attempts + 1);
        otpStore := otpStore[k := entry];
        assert otpStore == spec.1;
        return false;
      }
      otpStore := otpStore - {k};
      return true;
    }

    /** `ticket` stands for the fresh `UUID.randomUUID()`, so it is not in use yet. */
    method IssueRegistrationTicket(rawPhone: string, now: nat, ticket: string) returns (id: string)
      requires ticket !in registrationTickets
      modifies this`registrationTickets
      ensures id == ticket
      ensures registrationTickets == IssueStep(old(registrationTickets), ticket, NormalizePhone(rawPhone), now)
    {
      var phone := NormalizePhone(rawPhone);
      registrationTickets := registrationTickets[ticket := RegistrationTicket(phone, now + RegTicketTtlSeconds)];
      id := ticket;
    }

    method ConsumeRegistrationTicket(ticket: string, rawPhone: string, now: nat) returns (result: ConsumeResult)
      modifies this`registrationTickets
      ensures (result, registrationTickets)
        == ConsumeStep(old(registrationTickets), ticket, NormalizePhone(rawPhone), now)
    {
      var phone := NormalizePhone(rawPhone);
      if ticket !in registrationTickets {
        return NotFound;
      }
      var rt := registrationTickets[ticket];
      registrationTickets := registrationTickets - {ticket};
      if rt.phone != phone {
        return PhoneMismatch;
      }
      if rt.expiry < now {
        return Expired;
      }
      return Ok;
    }
  }
}
