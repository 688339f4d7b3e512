/** The page's small display decisions: the feedback line for a word, the
    recording timer's text and the colour classes for a score. */
module Display {

  /** Number of thresholds in `ts` that `score` reaches. */
  function Reached(score: real, ts: seq<real>): (k: nat)
    ensures k <= |ts|
  {
    if ts == [] then 0 else (if score >= ts[0] then 1 else 0) + Reached(score, ts[1..])
  }

  /** Reaching more is monotone in the score. */
  lemma {:induction false} ReachedMonotone(lo: real, hi: real, ts: seq<real>)
    requires lo <= hi
    ensures Reached(lo, ts) <= Reached(hi, ts)
  {
    if ts != [] {
      ReachedMonotone(lo, hi, ts[1..]);
    }
  }

  // ---------------------------------------------------------------------------
  // generateFeedback

  /** The per-error-type messages, which take precedence over the score. */
  const ErrorMessages: map<string, string> := map[
    "Omission" := "Word was not pronounced",
    "Insertion" := "Extra word detected",
    "Mispronunciation" := "Pronunciation needs improvement"
  ]

  /** The feedback thresholds, lowest first. */
  const FeedbackThresholds: seq<real> := [60.0, 70.0, 80.0, 90.0]

  /** The score messages, worst first: entry k is for scores reaching exactly k thresholds. */
  const FeedbackMessages: seq<string> := [
    "Significant improvement needed",
    "Needs improvement",
    "Acceptable, could be clearer",
    "Good pronunciation",
    "Excellent pronunciation"
  ]

  /** How many of the feedback thresholds a score reaches, one term per threshold. */
  lemma FeedbackBands(score: real)
    ensures Reached(score, FeedbackThresholds)
      == (if score >= 60.0 then 1 else 0) + (if score >= 70.0 then 1 else 0)
       + (if score >= 80.0 then 1 else 0) + (if score >= 90.0 then 1 else 0)
  {
    var ts := FeedbackThresholds;
    assert ts[1..][1..][1..][1..] == [];
    assert Reached(score, ts[1..][1..][1..]) == if score >= 90.0 then 1 else 0;
    assert Reached(score, ts[1..][1..]) == (if score >= 80.0 then 1 else 0) + Reached(score, ts[1..][1..][1..]);
    assert Reached(score, ts[1..]) == (if score >= 70.0 then 1 else 0) + Reached(score, ts[1..][1..]);
  }

  /** generateFeedback: a recognised error type decides the message whatever the
      score; otherwise the message is the table entry for the number of the 60,
      70, 80 and 90 thresholds the score reaches. */
  function GenerateFeedback(score: real, errorType: string): (msg: string)
    ensures errorType in ErrorMessages ==> msg == ErrorMessages[errorType]
    ensures errorType !in ErrorMessages ==> msg == FeedbackMessages[Reached(score, FeedbackThresholds)]
  {
    FeedbackBands(score);
    if errorType == "Omission" then "Word was not pronounced"
    else if errorType == "Insertion" then "Extra word detected"
    else if errorType == "Mispronunciation" then "Pronunciation needs improvement"
    else if score >= 90.0 then "Excellent pronunciation"
    else if score >= 80.0 then "Good pronunciation"
    else if score >= 70.0 then "Acceptable, could be clearer"
    else if score >= 60.0 then "Needs improvement"
    else "Significant improvement needed"
  }

  /** A higher score never gets a message from a lower band. */
  lemma FeedbackMonotone(lo: real, hi: real, errorType: string)
    requires lo <= hi && errorType !in ErrorMessages
    ensures exists i, j :: (0 <= i <= j < |FeedbackMessages|
      && GenerateFeedback(lo, errorType) == FeedbackMessages[i]
      && GenerateFeedback(hi, errorType) == FeedbackMessages[j])
  {
    ReachedMonotone(lo, hi, FeedbackThresholds);
    var i, j := Reached(lo, FeedbackThresholds), Reached(hi, FeedbackThresholds);
    assert GenerateFeedback(lo, errorType) == FeedbackMessages[i];
    assert GenerateFeedback(hi, errorType) == FeedbackMessages[j];
  }

  // ---------------------------------------------------------------------------
  // formatTime

  predicate IsDigit(c: char)
  {
    '0' <= c <= '9'
  }

  predicate AllDigits(s: string)
  {
    forall i :: 0 <= i < |s| ==> IsDigit(s[i])
  }

  function DigitChar(d: nat): (c: char)
    requires d < 10
    ensures IsDigit(c)
  {
    ('0' as int + d) as char
  }

  /** Number.prototype.toString() of a non-negative integer: its decimal digits. */
  function DecimalString(n: nat): (s: string)
    ensures |s| >= 1 && AllDigits(s)
    ensures s[0] == '0' ==> n == 0
    ensures n < 100 ==> |s| <= 2
  {
    if n < 10 then [DigitChar(n)] else DecimalString(n / 10) + [DigitChar(n % 10)]
  }

  /** The value of a string of decimal digits. */
  function ParseDecimal(s: string): nat
    requires AllDigits(s)
  {
    if s == [] then 0 else 10 * ParseDecimal(s[..|s| - 1]) + (s[|s| - 1] as int - '0' as int)
  }

  /** Printing and then reading a number gives it back. */
  lemma {:induction false} ParseDecimalString(n: nat)
    ensures ParseDecimal(DecimalString(n)) == n
  {
    if n >= 10 {
      var s := DecimalString(n);
      ParseDecimalString(n / 10);
      assert s[..|s| - 1] == DecimalString(n / 10);
    }
  }

  /** Leading zeros do not change a decimal number. */
  lemma {:induction false} LeadingZeros(zeros: string, s: string)
    requires forall i :: 0 <= i < |zeros| ==> zeros[i] == '0'
    requires AllDigits(s)
    ensures AllDigits(zeros + s) && ParseDecimal(zeros + s) == ParseDecimal(s)
  {
    if s == [] {
      assert zeros + s == zeros;
      AllZeros(zeros);
    } else {
      var t := zeros + s;
      assert t[..|t| - 1] == zeros + s[..|s| - 1];
      LeadingZeros(zeros, s[..|s| - 1]);
    }
  }

  lemma {:induction false} AllZeros(zeros: string)
    requires forall i :: 0 <= i < |zeros| ==> zeros[i] == '0'
    ensures AllDigits(zeros) && ParseDecimal(zeros) == 0
  {
    if zeros != [] {
      AllZeros(zeros[..|zeros| - 1]);
    }
  }

  /** String.prototype.padStart(target, fill) with a one-character fill. */
  function PadStart(s: string, target: nat, fill: char): (r: string)
    ensures |r| == if |s| >= target then |s| else target
    ensures r[|r| - |s|..] == s
    ensures forall i :: 0 <= i < |r| - |s| ==> r[i] == fill
  {
    if |s| >= target then s else seq(target - |s|, _ => fill) + s
  }

  /** formatTime: whole minutes, a colon, and the seconds padded to two digits;
      every character but the colon is a digit. */
  function FormatTime(seconds: nat): (t: string)
    ensures |t| >= 4 && t[|t| - 3] == ':'
    ensures AllDigits(t[..|t| - 3]) && AllDigits(t[|t| - 2..])
  {
    var mins := DecimalString(seconds / 60);
    var secs := PadStart(DecimalString(seconds % 60), 2, '0');
    PaddedDigits(DecimalString(seconds % 60));
    Joined(mins, secs);
    mins + ":" + secs
  }

  /** Seconds of at most two digits pad to exactly two digits. */
  lemma PaddedDigits(s: string)
    requires AllDigits(s) && |s| <= 2
    ensures |PadStart(s, 2, '0')| == 2 && AllDigits(PadStart(s, 2, '0'))
  {
    var r := PadStart(s, 2, '0');
    forall i | 0 <= i < |r| ensures IsDigit(r[i]) {
      if i >= |r| - |s| {
        assert r[i] == r[|r| - |s|..][i - (|r| - |s|)];
      }
    }
  }

  /** Minutes, a colon and two seconds digits: the colon sits third from the end. */
  lemma Joined(mins: string, secs: string)
    requires |mins| >= 1 && AllDigits(mins) && |secs| == 2 && AllDigits(secs)
    ensures var t := mins + ":" + secs;
      && |t| >= 4 && t[|t| - 3] == ':'
      && t[..|t| - 3] == mins && t[|t| - 2..] == secs
  {
  }

  /** The timer text reads back as minutes and seconds that make up the input:
      two seconds digits below 60, and minutes without leading zeros. */
  lemma FormatTimeParts(seconds: nat)
    ensures var t := FormatTime(seconds);
      && (t[0] == '0' ==> |t| == 4)
      && ParseDecimal(t[|t| - 2..]) < 60
      && 60 * ParseDecimal(t[..|t| - 3]) + ParseDecimal(t[|t| - 2..]) == seconds
  {
    var mins, secs := seconds / 60, seconds % 60;
    var m, s := DecimalString(mins), DecimalString(secs);
    var padded := PadStart(s, 2, '0');
    PaddedDigits(s);
    assert ParseDecimal(padded) == secs by {
      PaddedValue(s);
      ParseDecimalString(secs);
    }
    assert ParseDecimal(m) == mins by {
      ParseDecimalString(mins);
    }
    TimeText(FormatTime(seconds), m, padded);
  }

  /** Minutes without leading zeros, a colon and two seconds digits: each part
      reads back from its place in the text. */
  lemma TimeText(t: string, m: string, padded: string)
    requires |m| >= 1 && AllDigits(m) && (m[0] == '0' ==> |m| == 1)
    requires |padded| == 2 && AllDigits(padded)
    requires t == m + ":" + padded
    ensures t[0] == '0' ==> |t| == 4
    ensures AllDigits(t[..|t| - 3]) && ParseDecimal(t[..|t| - 3]) == ParseDecimal(m)
    ensures AllDigits(t[|t| - 2..]) && ParseDecimal(t[|t| - 2..]) == ParseDecimal(padded)
  {
    Joined(m, padded);
  }

  /** Padding seconds to two digits keeps their value. */
  lemma PaddedValue(s: string)
    requires AllDigits(s) && |s| <= 2
    ensures AllDigits(PadStart(s, 2, '0')) && ParseDecimal(PadStart(s, 2, '0')) == ParseDecimal(s)
  {
    var padded := PadStart(s, 2, '0');
    var zeros := padded[..|padded| - |s|];
    assert padded == zeros + s;
    LeadingZeros(zeros, s);
  }

  // ---------------------------------------------------------------------------
  // getScoreColor / getScoreBgColor

  /** The colour thresholds, lowest first, and the hue for each number of thresholds reached. */
  const ColorThresholds: seq<real> := [70.0, 90.0]
  const Hues: seq<string> := ["red", "yellow", "green"]

  /** How many of the colour thresholds a score reaches, one term per threshold. */
  lemma ColorBands(score: real)
    ensures Reached(score, ColorThresholds) == (if score >= 70.0 then 1 else 0) + (if score >= 90.0 then 1 else 0)
  {
    var ts := ColorThresholds;
    assert ts[1..][1..] == [];
  }

  /** getScoreColor: the text class shows the hue for the number of the 70 and
      90 thresholds the score reaches. */
  function ScoreColor(score: real): (c: string)
    ensures c == "text-" + Hues[Reached(score, ColorThresholds)] + "-600"
  {
    ColorBands(score);
    if score >= 90.0 then "text-green-600"
    else if score >= 70.0 then "text-yellow-600"
    else "text-red-600"
  }

  /** getScoreBgColor: the background class shows the same hue as getScoreColor. */
  function ScoreBgColor(score: real): (c: string)
    ensures c == "bg-" + Hues[Reached(score, ColorThresholds)] + "-100"
  {
    ColorBands(score);
    if score >= 90.0 then "bg-green-100"
    else if score >= 70.0 then "bg-yellow-100"
    else "bg-red-100"
  }

  /** A higher score never shows a hue further down red, yellow, green. */
  lemma ColorMonotone(lo: real, hi: real)
    requires lo <= hi
    ensures exists i, j :: (0 <= i <= j < |Hues|
      && ScoreColor(lo) == "text-" + Hues[i] + "-600"
      && ScoreColor(hi) == "text-" + Hues[j] + "-600")
  {
    ReachedMonotone(lo, hi, ColorThresholds);
    var i, j := Reached(lo, ColorThresholds), Reached(hi, ColorThresholds);
    assert ScoreColor(lo) == "text-" + Hues[i] + "-600";
    assert ScoreColor(hi) == "text-" + Hues[j] + "-600";
  }
}
