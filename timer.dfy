/** The OTP resend countdown: it counts down one second per tick and, at
    zero, swaps its "Resend OTP in 0:ss" text for a Resend button that
    restarts the count. A tick stands for one firing of the one-second
    interval together with the effect that runs after the count changes. */
module ResendTimer {
  import opened Text

  /** `n.toString()` for any integer: the decimal digits of |n|, after a
      minus sign when n is negative; the digits read back as |n|. */
  function IntToString(n: int): (r: string)
    ensures r != [] && (r[0] == '-' <==> n < 0)
    ensures var digits := if n < 0 then r[1..] else r;
      digits != [] && AllDigits(digits) && ParseDigits(digits) == (if n < 0 then -n else n)
  {
    var magnitude: nat := if n < 0 then -n else n;
    ParseNatToString(magnitude);
    if n >= 0 then NatToString(n)
    else
      var r := "-" + NatToString(magnitude);
      assert r[1..] == NatToString(magnitude);
      r
  }

  const LABEL_PREFIX: string := "Resend OTP in 0:"

  /** The countdown text: the seconds padded on the left with '0' to two
      characters at least. */
  function Label(seconds: int): string {
    LABEL_PREFIX + PadStart(IntToString(seconds), 2, '0')
  }

  /** For a count below a hundred the label ends in exactly two digits, and
      those two digits read back as the count. */
  lemma LabelShowsTwoDigits(seconds: int)
    requires 0 <= seconds < 100
    ensures |Label(seconds)| == |LABEL_PREFIX| + 2
    ensures AllDigits(Label(seconds)[|LABEL_PREFIX|..])
    ensures ParseDigits(Label(seconds)[|LABEL_PREFIX|..]) == seconds
  {
    var digits := Label(seconds)[|LABEL_PREFIX|..];
    ParseNatToString(seconds);
    if seconds < 10 {
      assert digits == ['0'] + NatToString(seconds);
      assert digits[..1] == ['0'];
    }
  }

  /** What the component shows. */
  datatype Display = ResendButton | Countdown(text: string)

  class Timer {
    const initialSeconds: int
    var seconds: int
    var canResend: bool
    /** How many times `onResend` has been called. */
    var resends: nat

    /** The button never shows while seconds remain; the count never goes
        above the start or below zero unless it started below zero and never
        moved; and for a positive start, the button shows exactly when the
        count is down to zero. */
    ghost predicate Valid()
      reads this
    {
      && (canResend ==> seconds <= 0)
      && seconds <= initialSeconds
      && (seconds < 0 ==> seconds == initialSeconds)
      && (initialSeconds > 0 ==> (canResend <==> seconds <= 0))
    }

    /** Mounting: the count starts at `initialSeconds`; the first effect run
        enables the button at once when that is not positive. */
    constructor (initialSeconds: int)
      ensures Valid()
      ensures this.initialSeconds == initialSeconds && seconds == initialSeconds
      ensures canResend == (initialSeconds <= 0)
      ensures resends == 0
    {
      this.initialSeconds := initialSeconds;
      seconds := initialSeconds;
      canResend := initialSeconds <= 0;
      resends := 0;
    }

    function View(): (d: Display)
      reads this
      ensures d.ResendButton? <==> canResend
      ensures d.Countdown? ==> d.text == Label(seconds)
    {
      if canResend then ResendButton else Countdown(Label(seconds))
    }

    /** One second passes. The interval runs only while seconds remain; the
        change re-runs the effect, which enables the button at zero. */
    method Tick() returns (ticked: bool)
      requires Valid()
      modifies this
      ensures Valid()
      ensures ticked == (old(seconds) > 0)
      ensures seconds == if ticked then old(seconds) - 1 else old(seconds)
      ensures canResend == (old(canResend) || (ticked && seconds == 0))
      ensures resends == old(resends)
    {
      ticked := seconds > 0;
      if ticked {
        seconds := seconds - 1;
        if seconds <= 0 {
          canResend := true;
        }
      }
    }

    /** `handleResend`, behind the Resend button: the count restarts, the
        button goes away and `onResend` is called once. With a start of zero
        or less the count is already at its start, so the effect does not
        run again and the button stays hidden from then on. */
    method HandleResend() returns (resent: bool)
      requires Valid()
      modifies this
      ensures Valid()
      ensures resent == old(canResend)
      ensures resent ==> seconds == initialSeconds && resends == old(resends) + 1
      ensures resent ==> !canResend
      ensures !resent ==> seconds == old(seconds) && canResend == old(canResend) && resends == old(resends)
    {
      resent := canResend;
      if resent {
        seconds := initialSeconds;
        canResend := false;
        resends := resends + 1;
      }
    }

    /** Ticking until the interval stops: from any valid state with a
        non-negative count, the count ends at zero with the button shown,
        after exactly as many ticks as there were seconds left. */
    method RunDown() returns (ticks: nat)
      requires Valid() && seconds >= 0 && (seconds == 0 ==> canResend)
      modifies this
      ensures Valid()
      ensures ticks == old(seconds)
      ensures seconds == 0 && canResend
      ensures resends == old(resends)
    {
      ticks := 0;
      while seconds > 0
        invariant Valid() && seconds >= 0
        invariant ticks + seconds == old(seconds)
        invariant seconds == 0 ==> canResend
        invariant resends == old(resends)
        decreases seconds
      {
        var ticked := Tick();
        ticks := ticks + 1;
      }
    }
  }

  /** With a start of zero or more the count never goes negative. */
  lemma NeverNegative(t: Timer)
    requires t.Valid() && t.initialSeconds >= 0
    ensures 0 <= t.seconds <= t.initialSeconds
  {
  }
}
