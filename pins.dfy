/**
 * The one-time PIN store of smtp_utils.py: six-digit PINs issued per email
 * address, kept with the second they were issued, accepted once within ten
 * minutes and then forgotten.
 *
 * The random draw of `secrets.randbelow(900000)` is the parameter `r`, the
 * clock is an integer number of seconds `now`, and the outcome of the SMTP
 * exchange is the parameter `delivered`.
 */
module PinAuth {

  /** The decimal digit character of `d`. */
  function DigitChar(d: int): char
    requires 0 <= d < 10
  {
    ('0' as int + d) as char
  }

  predicate IsDigit(c: char) {
    '0' <= c <= '9'
  }

  predicate AllDigits(s: string) {
    forall i :: 0 <= i < |s| ==> IsDigit(s[i])
  }

  function Pow10(k: nat): (p: nat)
    ensures p >= 1
  {
    if k == 0 then 1 else 10 * Pow10(k - 1)
  }

  /** Python's `str` of a non-negative int: decimal digits, most significant
      first, no leading zero. */
  function DecimalString(n: nat): (s: string)
    ensures |s| >= 1 && AllDigits(s)
    ensures s[0] != '0' || n == 0
    decreases n
  {
    if n < 10 then [DigitChar(n)] else DecimalString(n / 10) + [DigitChar(n % 10)]
  }

  /** The number a string of decimal digits denotes. */
  function DecimalValue(s: string): int
    requires AllDigits(s)
  {
    if s == [] then 0
    else 10 * DecimalValue(s[..|s| - 1]) + (s[|s| - 1] as int - '0' as int)
  }

  /** Reading back the decimal string of `n` gives `n`. */
  lemma {:induction false} DecimalRoundTrip(n: nat)
    ensures DecimalValue(DecimalString(n)) == n
    decreases n
  {
    if n >= 10 {
      var s := DecimalString(n);
      DecimalRoundTrip(n / 10);
      assert s[..|s| - 1] == DecimalString(n / 10);
    }
  }

  /** A number in `[10^k, 10^(k+1))` has `k + 1` decimal digits. */
  lemma {:induction false} DecimalLength(n: nat, k: nat)
    requires Pow10(k) <= n < Pow10(k + 1)
    ensures |DecimalString(n)| == k + 1
    decreases k
  {
    if k > 0 {
      assert Pow10(k) == 10 * Pow10(k - 1);
      assert Pow10(k + 1) == 10 * Pow10(k);
      assert Pow10(k - 1) <= n / 10 < Pow10(k);
      DecimalLength(n / 10, k - 1);
    }
  }

  /** `generate_pin` for the draw `r` of `secrets.randbelow(900000)`: the
      decimal string of `r + 100000`, which always has exactly six digits and
      no leading zero. */
  function GeneratePin(r: int): (pin: string)
    requires 0 <= r < 900000
    ensures |pin| == 6 && AllDigits(pin) && pin[0] != '0'
    ensures DecimalValue(pin) == r + 100000
  {
    DecimalRoundTrip(r + 100000);
    DecimalLength(r + 100000, 5);
    DecimalString(r + 100000)
  }

  /** Different draws give different PINs, so the 900000 draws give 900000
      distinct PINs. */
  lemma PinInjective(r1: int, r2: int)
    requires 0 <= r1 < 900000 && 0 <= r2 < 900000
    requires GeneratePin(r1) == GeneratePin(r2)
    ensures r1 == r2
  {
  }

  /** What `active_pins` holds for an email: the PIN and the second it was issued. */
  datatype PinEntry = PinEntry(pin: string, issuedAt: int)

  /** A PIN is valid for 600 seconds after issue, the 600th included. */
  const PinLifetimeSeconds := 600

  predicate Expired(e: PinEntry, now: int): (b: bool)
    ensures !b <==> now <= e.issuedAt + PinLifetimeSeconds
  {
    now - e.issuedAt > PinLifetimeSeconds
  }

  /** The outcome of one verification: the answer and the store left behind. */
  datatype Verdict = Verdict(accepted: bool, remaining: map<string, PinEntry>)

  /** `verify_pin` as a function of the store: an unknown email is refused
      and changes nothing; an expired entry is refused and dropped; a match is
      accepted and dropped; a mismatch is refused and kept. */
  function Verify(pins: map<string, PinEntry>, email: string, entered: string, now: int): (v: Verdict)
    ensures v.accepted <==> email in pins && !Expired(pins[email], now) && pins[email].pin == entered
    ensures email in pins && (Expired(pins[email], now) || pins[email].pin == entered)
            ==> v.remaining == pins - {email}
    ensures !(email in pins && (Expired(pins[email], now) || pins[email].pin == entered))
            ==> v.remaining == pins
    ensures forall other :: other != email ==>
              (other in v.remaining <==> other in pins)
              && (other in pins ==> v.remaining[other] == pins[other])
  {
    if email !in pins then Verdict(false, pins)
    else if Expired(pins[email], now) then Verdict(false, pins - {email})
    else if pins[email].pin == entered then Verdict(true, pins - {email})
    else Verdict(false, pins)
  }

  /** The module-level `active_pins` dictionary and the two functions that
      change it. */
  class PinStore {
    var activePins: map<string, PinEntry>

    constructor ()
      ensures activePins == map[]
    {
      activePins := map[];
    }

    /** `send_pin_email` without the mail exchange: the new PIN is stored
        under the address, replacing any earlier one, before and whatever the
        outcome of sending; the answer is whether the mail went out. */
    method SendPinEmail(toEmail: string, r: int, now: int, delivered: bool) returns (sent: bool)
      requires 0 <= r < 900000
      modifies this
      ensures activePins == old(activePins)[toEmail := PinEntry(GeneratePin(r), now)]
      ensures sent == delivered
    {
      var pin := GeneratePin(r);
      activePins := activePins[toEmail := PinEntry(pin, now)];
      sent := delivered;
    }

    /** `verify_pin`. */
    method VerifyPin(email: string, enteredPin: string, now: int) returns (ok: bool)
      modifies this
      ensures ok == Verify(old(activePins), email, enteredPin, now).accepted
      ensures activePins == Verify(old(activePins), email, enteredPin, now).remaining
    {
      if email !in activePins {
        return false;
      }
      var entry := activePins[email];
      if now - entry.issuedAt > PinLifetimeSeconds {
        activePins := activePins - {email};
        return false;
      }
      if entry.pin == enteredPin {
        activePins := activePins - {email};
        return true;
      }
      return false;
    }
  }

  /** A PIN is accepted at most once: after an acceptance, the same PIN for
      the same address is refused at any later moment. */
  lemma OneShot(pins: map<string, PinEntry>, email: string, entered: string, now: int, later: int)
    requires Verify(pins, email, entered, now).accepted
    ensures !Verify(Verify(pins, email, entered, now).remaining, email, entered, later).accepted
  {
  }

  /** The PIN just issued to an address is accepted exactly when it is
      presented within 600 seconds of issue; presented later it is refused
      and the entry is gone either way. */
  lemma IssueThenVerify(pins: map<string, PinEntry>, email: string, r: int, issuedAt: int, now: int)
    requires 0 <= r < 900000
    ensures var v := Verify(pins[email := PinEntry(GeneratePin(r), issuedAt)], email, GeneratePin(r), now);
      && (v.accepted <==> now - issuedAt <= PinLifetimeSeconds)
      && email !in v.remaining
  {
  }

  /** Issuing a second PIN to an address voids the first: only the newer one
      is accepted. */
  lemma ReissueVoidsOldPin(pins: map<string, PinEntry>, email: string, r1: int, r2: int, t1: int, t2: int, now: int)
    requires 0 <= r1 < 900000 && 0 <= r2 < 900000 && r1 != r2
    ensures !Verify(pins[email := PinEntry(GeneratePin(r1), t1)][email := PinEntry(GeneratePin(r2), t2)],
                    email, GeneratePin(r1), now).accepted
  {
    if GeneratePin(r1) == GeneratePin(r2) {
      PinInjective(r1, r2);
    }
  }

  /** A wrong PIN within the lifetime is refused and the entry stays, so the
      right PIN can still be entered afterwards. */
  lemma WrongPinKeepsEntry(pins: map<string, PinEntry>, email: string, entered: string, now: int)
    requires email in pins && !Expired(pins[email], now) && pins[email].pin != entered
    ensures Verify(pins, email, entered, now) == Verdict(false, pins)
    ensures Verify(pins, email, pins[email].pin, now).accepted
  {
  }

  /** An expired PIN is refused even when it matches. */
  lemma ExpiredRefused(pins: map<string, PinEntry>, email: string, now: int)
    requires email in pins && Expired(pins[email], now)
    ensures Verify(pins, email, pins[email].pin, now) == Verdict(false, pins - {email})
  {
  }
}
