/**
 * The two computations of the analytics panel (frontend/components/EnhancedStatsPanel.tsx):
 * the duration label and the live-visitor banner.
 */
module StatsPanel {
  import opened Text
  import opened Wrappers
  import opened Collections
  import opened Events
  import E = AnalyticsEnhanced

  /** `formatDuration`: "<s>s" under a minute, else "<m>m <r>s" with whole minutes and the rest. */
  function FormatDuration(seconds: int): (r: string)
    ensures |r| >= 2 && r[|r| - 1] == 's'
    ensures seconds >= 0 ==> ReadDuration(r) == Some(seconds)
    ensures seconds < 60 ==> r == IntString(seconds) + "s"
  {
    if seconds < 60 then
      var r := IntString(seconds) + "s";
      assert seconds >= 0 ==> ReadDuration(r) == Some(seconds) by {
        if seconds >= 0 { ReadsUnderAMinute(seconds); }
      }
      r
    else
      var r := Decimal(seconds / 60) + "m " + Decimal(seconds % 60) + "s";
      ReadsMinutes(seconds / 60, seconds % 60);
      r
  }

  /** How a reader takes a label back to seconds: either form, nothing else. */
  function ReadDuration(shown: string): (r: Option<nat>)
  {
    if |shown| < 2 || shown[|shown| - 1] != 's' then None
    else
      var body := shown[..|shown| - 1];
      if AllDigits(body) then Some(ParseDecimal(body))
      else
        match IndexOf(body, "m ")
        case None => None
        case Some(i) =>
          var m, s := body[..i], body[i + 2..];
          if m != [] && s != [] && AllDigits(m) && AllDigits(s) then Some(ParseDecimal(m) * 60 + ParseDecimal(s))
          else None
  }

  lemma ReadsUnderAMinute(seconds: nat)
    requires seconds < 60
    ensures ReadDuration(IntString(seconds) + "s") == Some(seconds)
  {
    var shown := IntString(seconds) + "s";
    assert shown[..|shown| - 1] == Decimal(seconds);
    ParseDecimalOfDecimal(seconds);
  }

  lemma ReadsMinutes(m: nat, s: nat)
    requires m >= 1 && s < 60
    ensures ReadDuration(Decimal(m) + "m " + Decimal(s) + "s") == Some(m * 60 + s)
  {
    var shown := Decimal(m) + "m " + Decimal(s) + "s";
    var body := shown[..|shown| - 1];
    var i := |Decimal(m)|;
    assert body == Decimal(m) + "m " + Decimal(s);
    assert body[i] == 'm';
    assert !AllDigits(body);
    assert OccursAt(body, "m ", i) by {
      assert body[i..i + 2] == "m ";
    }
    forall j | 0 <= j < i ensures !OccursAt(body, "m ", j) {
      assert body[j] == Decimal(m)[j];
      assert body[j..j + 2][0] == body[j];
    }
    IndexOfFirst(body, "m ", i);
    assert body[..i] == Decimal(m);
    assert body[i + 2..] == Decimal(s);
    ParseDecimalOfDecimal(m);
    ParseDecimalOfDecimal(s);
  }

  /** From a minute on, the label's parts are the whole minutes and a remainder below 60. */
  lemma MinutesAndSeconds(seconds: int)
    requires seconds >= 60
    ensures FormatDuration(seconds) == Decimal(seconds / 60) + "m " + Decimal(seconds % 60) + "s"
    ensures (seconds / 60) * 60 + seconds % 60 == seconds && 0 <= seconds % 60 < 60 && seconds / 60 >= 1
  {
  }

  /** The live banner: shown only while someone is active, with "visitor" pluralised unless there is one. */
  function LiveBanner(activeVisitors: int): (r: Option<string>)
    ensures r.Some? <==> activeVisitors > 0
    ensures r.Some? ==> (r.value == IntString(activeVisitors) + " active visitor"
      + (if activeVisitors != 1 then "s" else "") + " right now")
  {
    if activeVisitors > 0 then
      Some(IntString(activeVisitors) + " active visitor" + (if activeVisitors != 1 then "s" else "") + " right now")
    else None
  }

  /** The banner appears exactly when some page view falls in the last five minutes. */
  lemma BannerWhenRecentViews(pvs: seq<PageViewDoc>, now: int)
    ensures LiveBanner(E.ActiveVisitors(pvs, now - E.REALTIME_MS)).Some? <==> E.RecentViews(pvs, now - E.REALTIME_MS) != []
  {
    var recent := E.RecentViews(pvs, now - E.REALTIME_MS);
    DistinctCountIsKeySetSize(recent, E.ViewSession);
  }

  /** One visitor reads in the singular. */
  lemma SingleVisitor()
    ensures LiveBanner(1) == Some("1 active visitor right now")
  {
    assert IntString(1) == Decimal(1) == [DigitChar(1)] == "1";
    assert "1" + " active visitor" + "" + " right now" == "1 active visitor right now";
  }
}
