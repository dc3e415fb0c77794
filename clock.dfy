/** Times of day as the attendance records store them: "HH:MM" or "HH:MM:SS",
    zero-padded, on a 24-hour clock. The three readings of such a text that the
    code uses are `Minutes` (the `timeToMinutes` helper, which drops seconds),
    `Seconds` (what differences of `new Date(date + "T" + time)` measure within
    one date) and `LexKey` (the order of `time.localeCompare`). */
module Clock {
  import opened Text

  predicate TwoDigitsAt(s: string, i: nat)
  {
    i + 1 < |s| && IsDigit(s[i]) && IsDigit(s[i + 1])
  }

  function TwoDigits(s: string, i: nat): (v: nat)
    requires TwoDigitsAt(s, i)
    ensures v < 100
  {
    10 * DigitValue(s[i]) + DigitValue(s[i + 1])
  }

  predicate IsTimeText(s: string)
  {
    && (|s| == 5 || |s| == 8)
    && TwoDigitsAt(s, 0) && s[2] == ':' && TwoDigitsAt(s, 3)
    && (|s| == 8 ==> s[5] == ':' && TwoDigitsAt(s, 6))
    && TwoDigits(s, 0) < 24 && TwoDigits(s, 3) < 60
    && (|s| == 8 ==> TwoDigits(s, 6) < 60)
  }

  type TimeText = s: string | IsTimeText(s) witness "00:00"

  function HourPart(t: TimeText): nat { TwoDigits(t, 0) }
  function MinutePart(t: TimeText): nat { TwoDigits(t, 3) }
  function SecondPart(t: TimeText): nat { if |t| == 8 then TwoDigits(t, 6) else 0 }

  /** `timeToMinutes`: hours * 60 + minutes; a seconds part is ignored. */
  function Minutes(t: TimeText): (m: nat)
    ensures m < 24 * 60
  {
    HourPart(t) * 60 + MinutePart(t)
  }

  /** Seconds since midnight. */
  function Seconds(t: TimeText): (s: nat)
    ensures s < 24 * 3600
  {
    Minutes(t) * 60 + SecondPart(t)
  }

  /** A key whose numeric order is the text order of time strings: a text without
      seconds sorts just before the same minute written with ":SS". */
  function LexKey(t: TimeText): nat
  {
    2 * Seconds(t) + (if |t| == 8 then 1 else 0)
  }

  /** `timeToMinutes` reads the same minute that the seconds count lies in. */
  lemma MinutesOfSeconds(t: TimeText)
    ensures Minutes(t) == Seconds(t) / 60
  {
  }

  /** Times that are in text order are in chronological order. */
  lemma LexKeyMonotone(a: TimeText, b: TimeText)
    requires LexKey(a) <= LexKey(b)
    ensures Seconds(a) <= Seconds(b)
  {
  }

  /** Comparing two time texts character by character (JavaScript's `<`, which for
      digits and ':' at fixed places is also what `localeCompare` decides) is the
      same as comparing their `LexKey`s. */
  lemma {:induction false} LexKeyOrdersLikeText(a: TimeText, b: TimeText)
    ensures StrLt(a, b) <==> LexKey(a) < LexKey(b)
  {
    if a[0] != b[0] || a[1] != b[1] || a[3] != b[3] || a[4] != b[4] {
      MinuteDecides(a, b);
    } else if |a| == 5 || |b| == 5 {
      StrLtFromPrefix(a, b, 5);
      if |a| == 5 && |b| == 5 {
        assert a == b;
      }
    } else if a[6] != b[6] {
      StrLtFromPrefix(a, b, 6);
    } else if a[7] != b[7] {
      StrLtFromPrefix(a, b, 7);
    } else {
      assert a == b;
      StrLtAsymmetric(a, b);
    }
  }

  /** Texts that differ within "HH:MM" are ordered by their minute. */
  lemma MinuteDecides(a: TimeText, b: TimeText)
    requires a[0] != b[0] || a[1] != b[1] || a[3] != b[3] || a[4] != b[4]
    ensures StrLt(a, b) <==> LexKey(a) < LexKey(b)
  {
    if a[0] != b[0] || a[1] != b[1] {
      HourDecides(a, b);
    } else if a[3] != b[3] {
      MinuteTensDecide(a, b);
    } else {
      MinuteUnitsDecide(a, b);
    }
  }

  /** Texts with the same hour and different tens of minutes. */
  lemma MinuteTensDecide(a: TimeText, b: TimeText)
    requires a[0] == b[0] && a[1] == b[1] && a[3] != b[3]
    ensures StrLt(a, b) <==> LexKey(a) < LexKey(b)
  {
    StrLtFromPrefix(a, b, 3);
    assert StrLt(a, b) <==> a[3] < b[3] by {
      assert a[3..][0] == a[3] && b[3..][0] == b[3];
    }
    assert HourPart(a) == HourPart(b);
    assert LexKey(a) < LexKey(b) <==> a[3] < b[3] by {
      assert MinutePart(a) == 10 * DigitValue(a[3]) + DigitValue(a[4]);
      assert MinutePart(b) == 10 * DigitValue(b[3]) + DigitValue(b[4]);
    }
  }

  /** Texts with the same hour and tens of minutes and different minute units. */
  lemma MinuteUnitsDecide(a: TimeText, b: TimeText)
    requires a[0] == b[0] && a[1] == b[1] && a[3] == b[3] && a[4] != b[4]
    ensures StrLt(a, b) <==> LexKey(a) < LexKey(b)
  {
    StrLtFromPrefix(a, b, 4);
    assert StrLt(a, b) <==> a[4] < b[4] by {
      assert a[4..][0] == a[4] && b[4..][0] == b[4];
    }
    assert HourPart(a) == HourPart(b);
    assert LexKey(a) < LexKey(b) <==> a[4] < b[4] by {
      assert MinutePart(a) == 10 * DigitValue(a[3]) + DigitValue(a[4]);
      assert MinutePart(b) == 10 * DigitValue(b[3]) + DigitValue(b[4]);
    }
  }

  /** Texts that differ within "HH" are ordered by their hour. */
  lemma HourDecides(a: TimeText, b: TimeText)
    requires a[0] != b[0] || a[1] != b[1]
    ensures StrLt(a, b) <==> LexKey(a) < LexKey(b)
  {
    if a[0] != b[0] {
      StrLtFromPrefix(a, b, 0);
    } else {
      StrLtFromPrefix(a, b, 1);
    }
  }

  lemma {:induction false} StrLtFromPrefix(a: string, b: string, k: nat)
    requires k <= |a| && k <= |b|
    requires forall i :: 0 <= i < k ==> a[i] == b[i]
    ensures StrLt(a, b) == StrLt(a[k..], b[k..])
  {
    if k > 0 {
      StrLtFromPrefix(a[1..], b[1..], k - 1);
      assert a[1..][k - 1..] == a[k..] && b[1..][k - 1..] == b[k..];
    }
  }
}
