// The version history panel of the dashboard: the relative age shown next
// to each saved flow version, and the newest-first order of the list.

module VersionPanel {
  import opened Text

  // ---------------------------------------------------------------------------
  // Versions

  datatype VersionSource = Agent | Cli | Dashboard

  /** One saved version of a pack's flow, as the versions endpoint lists it. */
  datatype FlowVersion = FlowVersion(number: int, version: string, timestamp: string,
                                     versionLabel: Option<string>, source: VersionSource,
                                     conversationId: Option<string>)

  /** `[...versions].reverse()`, as a value. */
  function Reverse<T>(s: seq<T>): (r: seq<T>)
    ensures |r| == |s|
    ensures forall i :: 0 <= i < |s| ==> r[i] == s[|s| - 1 - i]
  {
    if s == [] then [] else Reverse(s[1..]) + [s[0]]
  }

  /** Reversing twice gives the list back. */
  lemma ReverseInvolution<T>(s: seq<T>)
    ensures Reverse(Reverse(s)) == s
  {
    var r := Reverse(Reverse(s));
    assert forall i :: 0 <= i < |s| ==> r[i] == s[i] by {
      forall i | 0 <= i < |s|
        ensures r[i] == s[i]
      {
        assert r[i] == Reverse(s)[|s| - 1 - i];
      }
    }
  }

  /** Reversing loses and adds no version. */
  lemma {:induction false} ReversePermutes<T>(s: seq<T>)
    ensures multiset(Reverse(s)) == multiset(s)
  {
    if s != [] {
      ReversePermutes(s[1..]);
      assert s == [s[0]] + s[1..];
    }
  }

  predicate Ascending(versions: seq<FlowVersion>) {
    forall i, j :: 0 <= i < j < |versions| ==> versions[i].number < versions[j].number
  }

  predicate Descending(versions: seq<FlowVersion>) {
    forall i, j :: 0 <= i < j < |versions| ==> versions[i].number > versions[j].number
  }

  /** A history listed oldest first is shown newest first. */
  lemma NewestFirst(versions: seq<FlowVersion>)
    requires Ascending(versions)
    ensures Descending(Reverse(versions))
    ensures versions != [] ==> Reverse(versions)[0] == versions[|versions| - 1]
  {
    var r := Reverse(versions);
    forall i, j | 0 <= i < j < |r|
      ensures r[i].number > r[j].number
    {
      assert r[i] == versions[|versions| - 1 - i] && r[j] == versions[|versions| - 1 - j];
    }
  }

  /** `sortedVersions`: a copy of the list, reversed in place, so that the
      list held by the panel is left as it was. */
  method SortedVersions(versions: seq<FlowVersion>) returns (sorted: seq<FlowVersion>)
    ensures sorted == Reverse(versions)
  {
    var a := new FlowVersion[|versions|](i requires 0 <= i < |versions| => versions[i]);
    var n := a.Length;
    var lo, hi := 0, n;
    while lo + 1 < hi
      invariant 0 <= lo <= hi <= n && lo + hi == n
      invariant forall k {:trigger a[k]} :: 0 <= k < n ==> a[k] == if lo <= k < hi then versions[k] else versions[n - 1 - k]
      decreases hi - lo
    {
      var front, back := a[lo], a[hi - 1];
      assert front == versions[lo] && back == versions[n - 1 - lo];
      a[lo] := back;
      a[hi - 1] := front;
      lo, hi := lo + 1, hi - 1;
    }
    sorted := a[..];
    forall k | 0 <= k < n
      ensures sorted[k] == versions[n - 1 - k]
    {
      if lo <= k < hi {
        assert k == n - 1 - k;
      }
    }
    ReverseByIndex(versions, sorted);
  }

  /** A list that holds the elements of another from the back is its reverse. */
  lemma ReverseByIndex<T>(s: seq<T>, r: seq<T>)
    requires |r| == |s|
    requires forall i :: 0 <= i < |s| ==> r[i] == s[|s| - 1 - i]
    ensures r == Reverse(s)
  {
  }

  // ---------------------------------------------------------------------------
  // Relative age

  const MsPerMinute := 60000
  const MinutesPerHour := 60
  const HoursPerDay := 24

  /** The bucket `timeAgo` puts a difference in, with its number. */
  datatype Age = JustNow | MinutesAgo(minutes: nat) | HoursAgo(hours: nat) | DaysAgo(days: nat)

  /** The branches of `timeAgo` on `diff`, the milliseconds since the version
      was saved. The source rounds each division with `Math.floor`; Dafny's
      `/` by a positive divisor rounds toward negative infinity too, so a
      negative difference gives a negative number of minutes, which the
      first branch catches. */
  function AgeOf(diff: int): Age {
    var minutes := diff / MsPerMinute;
    if minutes < 1 then JustNow
    else if minutes < MinutesPerHour then MinutesAgo(minutes)
    else
      var hours := minutes / MinutesPerHour;
      if hours < HoursPerDay then HoursAgo(hours)
      else DaysAgo(hours / HoursPerDay)
  }

  /** The text `timeAgo` shows for a bucket. */
  function Render(a: Age): string {
    match a
    case JustNow => "just now"
    case MinutesAgo(m) => Counted(m, 'm')
    case HoursAgo(h) => Counted(h, 'h')
    case DaysAgo(d) => Counted(d, 'd')
  }

  /** A count followed by its unit letter and " ago". */
  function Counted(n: nat, unit: char): string {
    NatToString(n) + [unit] + " ago"
  }

  /** `timeAgo`, with the difference `Date.now() - new Date(isoString).getTime()`
      taken as a parameter. */
  function TimeAgo(diff: int): string {
    Render(AgeOf(diff))
  }

  /** The buckets are the ranges of the difference, and the number shown is
      the whole minutes, hours or days elapsed, within its unit's range. */
  lemma AgeBuckets(diff: int)
    ensures AgeOf(diff).JustNow? <==> diff < 60000
    ensures AgeOf(diff).MinutesAgo? <==> 60000 <= diff < 3600000
    ensures AgeOf(diff).HoursAgo? <==> 3600000 <= diff < 86400000
    ensures AgeOf(diff).DaysAgo? <==> 86400000 <= diff
    ensures AgeOf(diff).MinutesAgo? ==> AgeOf(diff).minutes == diff / 60000 && 1 <= AgeOf(diff).minutes < 60
    ensures AgeOf(diff).HoursAgo? ==> AgeOf(diff).hours == diff / 3600000 && 1 <= AgeOf(diff).hours < 24
    ensures AgeOf(diff).DaysAgo? ==> AgeOf(diff).days == diff / 86400000 && AgeOf(diff).days >= 1
  {
  }

  /** Reading back what `Render` wrote: the bucket is recovered from the
      text, so no two buckets share a text. */
  function ReadAge(s: string): Option<Age> {
    if s == "just now" then Some(JustNow)
    else if |s| > 5 && s[|s| - 4..] == " ago" && AllDigits(s[..|s| - 5]) then
      UnitAge(s[|s| - 5], DigitsValue(s[..|s| - 5]))
    else None
  }

  function UnitAge(unit: char, n: nat): Option<Age> {
    match unit
    case 'm' => Some(MinutesAgo(n))
    case 'h' => Some(HoursAgo(n))
    case 'd' => Some(DaysAgo(n))
    case _ => None
  }

  /** A counted text reads back as its count and unit. */
  lemma ReadCounted(n: nat, unit: char)
    ensures ReadAge(Counted(n, unit)) == UnitAge(unit, n)
  {
    var s := Counted(n, unit);
    assert s[..|s| - 5] == NatToString(n);
    assert s[|s| - 4..] == " ago";
    assert s[0] == NatToString(n)[0];
    assert s != "just now" by {
      assert IsDigit(s[0]);
    }
    NatToStringRoundTrip(n);
  }

  /** `ReadAge` undoes `Render`. */
  lemma ReadRender(a: Age)
    ensures ReadAge(Render(a)) == Some(a)
  {
    match a
    case JustNow =>
    case MinutesAgo(m) => ReadCounted(m, 'm');
    case HoursAgo(h) => ReadCounted(h, 'h');
    case DaysAgo(d) => ReadCounted(d, 'd');
  }

  /** Every difference lands in exactly one bucket, and its text names that
      bucket and no other. */
  lemma TimeAgoReadsBack(diff: int)
    ensures ReadAge(TimeAgo(diff)) == Some(AgeOf(diff))
    ensures TimeAgo(diff) == "just now" <==> diff < 60000
  {
    AgeBuckets(diff);
    ReadRender(AgeOf(diff));
  }

  /** The texts of the three counted buckets. */
  lemma TimeAgoText(diff: int)
    ensures 60000 <= diff < 3600000 ==> TimeAgo(diff) == NatToString(diff / 60000) + "m ago"
    ensures 3600000 <= diff < 86400000 ==> TimeAgo(diff) == NatToString(diff / 3600000) + "h ago"
    ensures 86400000 <= diff ==> TimeAgo(diff) == NatToString(diff / 86400000) + "d ago"
  {
    AgeBuckets(diff);
  }
}
