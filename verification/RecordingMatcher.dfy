/** Fuzzy titles by longest common substring, the nearest program of a schedule, and the
    reservation of one channel per work. Titles are taken after normalisation; times are
    seconds. */
module RecordingMatcher {
  import opened Wrappers

  // ----- longest common substring -----

  /** a and b share the block of length l at i and j. */
  predicate Common(a: string, b: string, i: nat, j: nat, l: nat) {
    i + l <= |a| && j + l <= |b| && a[i..i + l] == b[j..j + l]
  }

  predicate HasCommon(a: string, b: string, l: nat) {
    exists i: nat, j: nat | i <= |a| && j <= |b| :: Common(a, b, i, j, l)
  }

  lemma CommonGrows(a: string, b: string, i: nat, j: nat, l: nat)
    requires Common(a, b, i, j, l) && i + l < |a| && j + l < |b| && a[i + l] == b[j + l]
    ensures Common(a, b, i, j, l + 1)
  {
    SliceGrows(a, i, l);
    SliceGrows(b, j, l);
  }

  lemma SliceGrows(a: string, i: nat, l: nat)
    requires i + l < |a|
    ensures a[i..i + l + 1] == a[i..i + l] + [a[i + l]]
  {
    var longer, shorter := a[i..i + l + 1], a[i..i + l];
    forall n | 0 <= n < l ensures longer[n] == shorter[n] { assert longer[n] == a[i + n]; }
  }

  /** Length of the longest common suffix of the prefixes of lengths i and j. */
  function SuffixLen(a: string, b: string, i: nat, j: nat): (l: nat)
    requires i <= |a| && j <= |b|
    ensures l <= i && l <= j && Common(a, b, i - l, j - l, l)
  {
    if i == 0 || j == 0 || a[i - 1] != b[j - 1] then
      assert a[i..i] == b[j..j];
      0
    else
      var l := SuffixLen(a, b, i - 1, j - 1);
      CommonGrows(a, b, i - 1 - l, j - 1 - l, l);
      l + 1
  }

  lemma TakeOfSlice(a: string, i: nat, l: nat, k: nat)
    requires k <= l && i + l <= |a|
    ensures a[i..i + l][..k] == a[i..i + k]
  {
    var taken, slice := a[i..i + l][..k], a[i..i + k];
    assert |taken| == |slice| == k;
    forall n | 0 <= n < k ensures taken[n] == slice[n] { assert taken[n] == a[i..i + l][n] == a[i + n]; }
  }

  /** Every prefix of a shared block is shared. */
  lemma CommonShrinks(a: string, b: string, i: nat, j: nat, l: nat, k: nat)
    requires k <= l && Common(a, b, i, j, l)
    ensures Common(a, b, i, j, k)
  {
    TakeOfSlice(a, i, l, k);
    TakeOfSlice(b, j, l, k);
  }

  lemma CommonEnds(a: string, b: string, i: nat, j: nat, l: nat)
    requires 0 < l && Common(a, b, i, j, l)
    ensures a[i + l - 1] == b[j + l - 1]
  {
    assert a[i..i + l][l - 1] == b[j..j + l][l - 1];
  }

  /** A shared block ending at i + l and j + l is no longer than the suffix length there. */
  lemma {:induction false} BlockFitsSuffix(a: string, b: string, i: nat, j: nat, l: nat)
    requires Common(a, b, i, j, l)
    ensures l <= SuffixLen(a, b, i + l, j + l)
    decreases l
  {
    if l > 0 {
      hide Common;
      CommonEnds(a, b, i, j, l);
      CommonShrinks(a, b, i, j, l, l - 1);
      BlockFitsSuffix(a, b, i, j, l - 1);
    }
  }

  /** The array holds the suffix lengths of one row. */
  ghost predicate IsRow(a: string, b: string, row: nat, cells: array<nat>)
    requires row <= |a|
    reads cells
  {
    cells.Length == |b| + 1 && forall j | 0 <= j <= |b| :: cells[j] == SuffixLen(a, b, row, j)
  }

  /** No suffix length up to the row exceeds the best, which some shared block attains. */
  ghost predicate IsBest(a: string, b: string, row: nat, best: nat)
    requires row <= |a|
  {
    HasCommon(a, b, best) && forall i: nat, j: nat | i <= row && j <= |b| :: SuffixLen(a, b, i, j) <= best
  }

  lemma SuffixIsCommon(a: string, b: string, i: nat, j: nat)
    requires i <= |a| && j <= |b|
    ensures HasCommon(a, b, SuffixLen(a, b, i, j))
  {
    var l := SuffixLen(a, b, i, j);
    assert Common(a, b, i - l, j - l, l);
  }

  lemma RowExtendsBest(a: string, b: string, row: nat, start: nat, best: nat)
    requires 0 < row <= |a| && IsBest(a, b, row - 1, start) && start <= best && HasCommon(a, b, best)
    requires forall j | 0 <= j <= |b| :: SuffixLen(a, b, row, j) <= best
    ensures IsBest(a, b, row, best)
  {
    hide HasCommon;
    forall i: nat, j: nat | i <= row && j <= |b| ensures SuffixLen(a, b, i, j) <= best {
      if i < row { assert SuffixLen(a, b, i, j) <= start; }
    }
  }

  /** One row of the table from the one above it. */
  method NextRow(a: string, b: string, row: nat, prev: array<nat>, start: nat) returns (cur: array<nat>, best: nat)
    requires 0 < row <= |a| && IsRow(a, b, row - 1, prev) && IsBest(a, b, row - 1, start)
    ensures fresh(cur) && IsRow(a, b, row, cur) && IsBest(a, b, row, best)
  {
    hide HasCommon, Common;
    best := start;
    cur := new nat[|b| + 1](_ => 0);
    for j := 1 to |b| + 1
      invariant forall k | 0 <= k < j :: cur[k] == SuffixLen(a, b, row, k) && cur[k] <= best
      invariant forall k | j <= k <= |b| :: cur[k] == 0
      invariant start <= best && HasCommon(a, b, best)
    {
      if a[row - 1] == b[j - 1] {
        cur[j] := prev[j - 1] + 1;
        SuffixIsCommon(a, b, row, j);
        if cur[j] > best { best := cur[j]; }
      }
    }
    forall j | 0 <= j <= |b| ensures SuffixLen(a, b, row, j) <= best { assert cur[j] <= best; }
    RowExtendsBest(a, b, row, start, best);
  }

  /** The rolling-row computation returns the maximum length of a shared block. */
  method LongestCommonSubstringLen(a: string, b: string) returns (best: nat)
    ensures HasCommon(a, b, best)
    ensures forall l: nat | HasCommon(a, b, l) :: l <= best
  {
    assert Common(a, b, 0, 0, 0);
    best := 0;
    if a == "" || b == "" { return; }
    var prev := new nat[|b| + 1](_ => 0);
    for row := 0 to |a|
      invariant IsRow(a, b, row, prev) && IsBest(a, b, row, best)
    {
      prev, best := NextRow(a, b, row + 1, prev, best);
    }
    forall l: nat | HasCommon(a, b, l) ensures l <= best { BlocksFit(a, b, l); }
  }

  lemma BlocksFit(a: string, b: string, l: nat)
    requires HasCommon(a, b, l)
    ensures exists i: nat, j: nat | i <= |a| && j <= |b| :: l <= SuffixLen(a, b, i, j)
  {
    var i: nat, j: nat :| i <= |a| && j <= |b| && Common(a, b, i, j, l);
    BlockFitsSuffix(a, b, i, j, l);
  }

  /** Every prefix of a shared block is shared. */
  lemma ShorterIsCommon(a: string, b: string, l: nat, k: nat)
    requires HasCommon(a, b, l) && k <= l
    ensures HasCommon(a, b, k)
  {
    var i: nat, j: nat :| i <= |a| && j <= |b| && Common(a, b, i, j, l);
    CommonShrinks(a, b, i, j, l, k);
  }

  /** A work and a program are the same when both have a name and share a block as long as the
      required minimum, or the whole work title when that is shorter. */
  predicate SameTitle(work: string, program: string, minChars: nat) {
    work != "" && program != "" && HasCommon(work, program, if |work| <= minChars then |work| else minChars)
  }

  method ContainsTitle(work: string, program: string) returns (found: bool)
    requires work != ""
    ensures found <==> HasCommon(work, program, |work|)
  {
    found := false;
    var j := 0;
    while j + |work| <= |program| && !found
      invariant found ==> HasCommon(work, program, |work|)
      invariant !found ==> forall k: nat | k < j :: !Common(work, program, 0, k, |work|)
      decreases |program| - j, !found
    {
      if program[j..j + |work|] == work {
        assert work[0..|work|] == work;
        assert Common(work, program, 0, j, |work|);
        found := true;
      } else {
        assert work[0..|work|] == work;
        j := j + 1;
      }
    }
  }

  method TitleMatches(work: string, program: string, minChars: nat) returns (same: bool)
    ensures same <==> SameTitle(work, program, minChars)
  {
    if work == "" || program == "" { return false; }
    if |work| <= minChars {
      same := ContainsTitle(work, program);
    } else {
      var longest := LongestCommonSubstringLen(work, program);
      if longest >= minChars { ShorterIsCommon(work, program, longest, minChars); }
      same := longest >= minChars;
    }
  }

  // ----- nearest program -----

  datatype Slot = Slot(start: int, id: int, name: string)

  function Distance(a: int, b: int): nat { if a < b then b - a else a - b }

  /** The first of the slots nearest to the target within the tolerance. */
  predicate IsNearest(slots: seq<Slot>, target: int, tolerance: nat, k: nat) {
    && k < |slots| && Distance(slots[k].start, target) <= tolerance
    && (forall i | 0 <= i < |slots| :: Distance(slots[k].start, target) <= Distance(slots[i].start, target))
    && (forall i | 0 <= i < k :: Distance(slots[k].start, target) < Distance(slots[i].start, target))
  }

  function Nearest(slots: seq<Slot>, target: int, tolerance: nat): (r: Option<nat>)
    ensures r.Some? ==> IsNearest(slots, target, tolerance, r.value)
    ensures r.None? ==> forall i | 0 <= i < |slots| :: Distance(slots[i].start, target) > tolerance
  {
    if slots == [] then None else
    var n := |slots| - 1;
    var before := Nearest(slots[..n], target, tolerance);
    var delta := Distance(slots[n].start, target);
    if delta <= tolerance && (before.None? || delta < Distance(slots[before.value].start, target)) then Some(n) else before
  }

  lemma NearestIsUnique(slots: seq<Slot>, target: int, tolerance: nat, k: nat)
    requires IsNearest(slots, target, tolerance, k)
    ensures Nearest(slots, target, tolerance) == Some(k)
  {
    var r := Nearest(slots, target, tolerance);
    assert r.Some?;
  }

  method MatchProgram(slots: seq<Slot>, target: int, tolerance: nat) returns (best: Option<Slot>)
    ensures match Nearest(slots, target, tolerance) case None => best.None? case Some(k) => best == Some(slots[k])
  {
    best := None;
    var bestDelta := tolerance + 1;
    ghost var at := 0;
    for i := 0 to |slots|
      invariant best.None? ==> bestDelta == tolerance + 1 && forall k | 0 <= k < i :: Distance(slots[k].start, target) > tolerance
      invariant best.Some? ==> 0 <= at < i && best.value == slots[at] && bestDelta == Distance(slots[at].start, target) && IsNearest(slots[..i], target, tolerance, at)
    {
      var delta := Distance(slots[i].start, target);
      if delta <= tolerance && delta < bestDelta {
        bestDelta := delta;
        best := Some(slots[i]);
        at := i;
      }
    }
    assert slots[..|slots|] == slots;
    if best.Some? { NearestIsUnique(slots, target, tolerance, at); }
  }

  // ----- one channel per work -----

  datatype Broadcast = Broadcast(start: int, channel: int)

  datatype Settings = Settings(tolerance: nat, minChars: nat)

  /** Terrestrial before BS before CS. */
  function Priority(channel: int): nat {
    if channel >= 1_000_000_000 then 0
    else if 400_000 <= channel < 500_000 then 1
    else 2
  }

  predicate Before(a: int, b: int) {
    Priority(a) < Priority(b) || (Priority(a) == Priority(b) && a <= b)
  }

  /** Any terrestrial channel is preferred to any BS channel, and both to any other. */
  lemma TerrestrialThenBs(gr: int, bs: int, cs: int)
    requires gr >= 1_000_000_000 && 400_000 <= bs < 500_000 && cs < 1_000_000_000 && !(400_000 <= cs < 500_000)
    ensures Before(gr, bs) && Before(bs, cs) && Before(gr, cs) && !Before(bs, gr) && !Before(cs, bs) && !Before(cs, gr)
  {
  }

  /** Within each of the three the smaller number is preferred. */
  lemma SmallerOfItsKind(a: int, b: int)
    requires (a >= 1_000_000_000) == (b >= 1_000_000_000) && (400_000 <= a < 500_000) == (400_000 <= b < 500_000)
    ensures Before(a, b) <==> a <= b
  {
  }

  /** The slot is the first of those nearest to the time, near enough, and its name and the title,
      neither empty, share a block of the required length, or the whole of a short title. */
  predicate IsTheProgram(title: string, time: int, slots: seq<Slot>, s: Settings, k: nat) {
    && k < |slots| && slots[k].start - s.tolerance <= time <= slots[k].start + s.tolerance
    && (forall i | 0 <= i < |slots| :: Distance(slots[k].start, time) <= Distance(slots[i].start, time))
    && (forall i | 0 <= i < k :: Distance(slots[k].start, time) < Distance(slots[i].start, time))
    && title != "" && slots[k].name != ""
    && HasCommon(title, slots[k].name, if |title| <= s.minChars then |title| else s.minChars)
  }

  /** A channel confirms exactly the programs of its broadcasts. */
  lemma {:induction false} ConfirmedIff(title: string, broadcasts: seq<Broadcast>, slots: seq<Slot>, s: Settings, id: int)
    ensures id in Confirmed(title, broadcasts, slots, s) <==>
      exists b, k: nat | b in broadcasts && k < |slots| :: IsTheProgram(title, b.start, slots, s, k) && slots[k].id == id
  {
    if broadcasts != [] {
      var n := |broadcasts| - 1;
      var b := broadcasts[n];
      ConfirmedIff(title, broadcasts[..n], slots, s, id);
      assert broadcasts == broadcasts[..n] + [b];
      TheProgramIff(title, b.start, slots, s);
      hide IsTheProgram, SameTitle, Nearest;
    }
  }

  lemma TheProgramIff(title: string, time: int, slots: seq<Slot>, s: Settings)
    ensures var near := Nearest(slots, time, s.tolerance);
      forall k: nat | k < |slots| :: IsTheProgram(title, time, slots, s, k) <==> near == Some(k) && SameTitle(title, slots[k].name, s.minChars)
  {
    forall k: nat | k < |slots|
      ensures IsTheProgram(title, time, slots, s, k) <==> Nearest(slots, time, s.tolerance) == Some(k) && SameTitle(title, slots[k].name, s.minChars)
    {
      if IsNearest(slots, time, s.tolerance, k) { NearestIsUnique(slots, time, s.tolerance, k); }
      hide HasCommon, Nearest;
    }
  }

  lemma {:induction false} OnChannelIff(broadcasts: seq<Broadcast>, channel: int, b: Broadcast)
    ensures b in OnChannel(broadcasts, channel) <==> b in broadcasts && b.channel == channel
  {
    if broadcasts != [] {
      var n := |broadcasts| - 1;
      OnChannelIff(broadcasts[..n], channel, b);
      assert broadcasts == broadcasts[..n] + [broadcasts[n]];
    }
  }

  /** The programs a channel confirms for a work, in broadcast order. */
  function Confirmed(title: string, broadcasts: seq<Broadcast>, slots: seq<Slot>, s: Settings): (ids: seq<int>) {
    if broadcasts == [] then [] else
    var n := |broadcasts| - 1;
    var k := Nearest(slots, broadcasts[n].start, s.tolerance);
    Confirmed(title, broadcasts[..n], slots, s) +
    if k.Some? && SameTitle(title, slots[k.value].name, s.minChars) then [slots[k.value].id] else []
  }

  method ConfirmChannel(title: string, broadcasts: seq<Broadcast>, slots: seq<Slot>, s: Settings) returns (ids: seq<int>)
    ensures ids == Confirmed(title, broadcasts, slots, s)
  {
    ids := [];
    for i := 0 to |broadcasts|
      invariant ids == Confirmed(title, broadcasts[..i], slots, s)
    {
      assert broadcasts[..i + 1][..i] == broadcasts[..i];
      var found := MatchProgram(slots, broadcasts[i].start, s.tolerance);
      if found.Some? {
        var same := TitleMatches(title, found.value.name, s.minChars);
        if same { ids := ids + [found.value.id]; }
      }
    }
    assert broadcasts[..|broadcasts|] == broadcasts;
  }

  function OnChannel(broadcasts: seq<Broadcast>, channel: int): seq<Broadcast> {
    if broadcasts == [] then [] else
    OnChannel(broadcasts[..|broadcasts| - 1], channel) +
    if broadcasts[|broadcasts| - 1].channel == channel then [broadcasts[|broadcasts| - 1]] else []
  }

  /** The groups hold exactly the channels that occur, each with its broadcasts in order. */
  ghost predicate IsGrouping(broadcasts: seq<Broadcast>, groups: map<int, seq<Broadcast>>) {
    forall c: int :: OnChannel(broadcasts, c) == (if c in groups then groups[c] else []) && (c in groups ==> groups[c] != [])
  }

  lemma GroupingGrows(broadcasts: seq<Broadcast>, groups: map<int, seq<Broadcast>>, b: Broadcast)
    requires IsGrouping(broadcasts, groups)
    ensures IsGrouping(broadcasts + [b], WithBroadcast(groups, b))
  {
    assert (broadcasts + [b])[..|broadcasts|] == broadcasts;
  }

  lemma {:induction false} OnChannelHas(broadcasts: seq<Broadcast>, c: int)
    ensures OnChannel(broadcasts, c) != [] <==> exists b | b in broadcasts :: b.channel == c
  {
    if broadcasts != [] {
      var n := |broadcasts| - 1;
      OnChannelHas(broadcasts[..n], c);
      assert broadcasts == broadcasts[..n] + [broadcasts[n]];
    }
  }

  function WithBroadcast(groups: map<int, seq<Broadcast>>, b: Broadcast): map<int, seq<Broadcast>> {
    groups[b.channel := (if b.channel in groups then groups[b.channel] else []) + [b]]
  }

  ghost predicate SameChannels(channels: seq<int>, groups: map<int, seq<Broadcast>>) {
    Distinct(channels) && forall c :: c in channels <==> c in groups
  }

  lemma ChannelsGrow(channels: seq<int>, groups: map<int, seq<Broadcast>>, b: Broadcast)
    requires SameChannels(channels, groups)
    ensures SameChannels(if b.channel in groups then channels else channels + [b.channel], WithBroadcast(groups, b))
  {
    if b.channel !in groups { DistinctConcat(channels, [b.channel]); }
  }

  lemma NoGroups()
    ensures IsGrouping([], map[]) && SameChannels([], map[])
  {
  }

  /** The groups and, in the order of first occurrence, their channels. */
  method GroupByChannel(broadcasts: seq<Broadcast>) returns (groups: map<int, seq<Broadcast>>, channels: seq<int>)
    ensures IsGrouping(broadcasts, groups)
    ensures SameChannels(channels, groups)
  {
    hide IsGrouping, SameChannels, WithBroadcast;
    groups, channels := map[], [];
    NoGroups();
    assert broadcasts[..0] == [];
    for i := 0 to |broadcasts|
      invariant IsGrouping(broadcasts[..i], groups)
      invariant SameChannels(channels, groups)
    {
      var b := broadcasts[i];
      GroupingGrows(broadcasts[..i], groups, b);
      ChannelsGrow(channels, groups, b);
      assert broadcasts[..i + 1] == broadcasts[..i] + [b];
      if b.channel !in groups { channels := channels + [b.channel]; }
      groups := WithBroadcast(groups, b);
    }
    assert broadcasts[..|broadcasts|] == broadcasts;
  }

  predicate Ordered(order: seq<int>) {
    forall i, j | 0 <= i < j < |order| :: Before(order[i], order[j]) && order[i] != order[j]
  }

  function Insert(c: int, order: seq<int>): (r: seq<int>)
    requires Ordered(order) && c !in order
    ensures Ordered(r) && forall d :: d in r <==> d == c || d in order
  {
    if order == [] then [c]
    else if Before(c, order[0]) then [c] + order
    else
      assert order == [order[0]] + order[1..];
      assert forall d | d in order[1..] :: Before(order[0], d) && order[0] != d;
      ConsOrdered(order[0], Insert(c, order[1..]));
      [order[0]] + Insert(c, order[1..])
  }

  lemma ConsOrdered(first: int, rest: seq<int>)
    requires Ordered(rest) && forall d | d in rest :: Before(first, d) && first != d
    ensures Ordered([first] + rest)
  {
    forall i, j | 0 <= i < j < |[first] + rest| ensures Before(([first] + rest)[i], ([first] + rest)[j]) && ([first] + rest)[i] != ([first] + rest)[j] {
      if i == 0 { assert ([first] + rest)[j] in rest; }
    }
  }

  method SortChannels(channels: seq<int>) returns (order: seq<int>)
    requires Distinct(channels)
    ensures Ordered(order) && forall c :: c in order <==> c in channels
  {
    order := [];
    for i := 0 to |channels|
      invariant Ordered(order) && forall c :: c in order <==> c in channels[..i]
    {
      assert channels[..i + 1] == channels[..i] + [channels[i]];
      order := Insert(channels[i], order);
    }
    assert channels[..|channels|] == channels;
  }

  /** The channel a work is recorded from: the first in order that confirms any broadcast. */
  predicate IsChosen(title: string, broadcasts: seq<Broadcast>, schedules: map<int, seq<Slot>>, s: Settings, channel: int) {
    && Confirms(title, broadcasts, schedules, s, channel)
    && forall b | b in broadcasts && Confirms(title, broadcasts, schedules, s, b.channel) :: Before(channel, b.channel)
  }

  function ScheduleOf(schedules: map<int, seq<Slot>>, channel: int): seq<Slot> {
    if channel in schedules then schedules[channel] else []
  }

  predicate Confirms(title: string, broadcasts: seq<Broadcast>, schedules: map<int, seq<Slot>>, s: Settings, channel: int) {
    Confirmed(title, OnChannel(broadcasts, channel), ScheduleOf(schedules, channel), s) != []
  }

  predicate Distinct(ids: seq<int>) { forall i, j | 0 <= i < j < |ids| :: ids[i] != ids[j] }

  /** The identifiers not yet reserved, each once, in order. */
  function NewIds(ids: seq<int>, reserved: set<int>): (added: seq<int>)
    ensures Distinct(added)
    ensures forall id :: id in added <==> id in ids && id !in reserved
  {
    if ids == [] then [] else
    var n := |ids| - 1;
    var before := NewIds(ids[..n], reserved);
    assert ids == ids[..n] + [ids[n]];
    if ids[n] in reserved || ids[n] in before then before else before + [ids[n]]
  }

  datatype Work = Work(title: string, broadcasts: seq<Broadcast>, streamable: Option<bool>)

  /** The reservations of one work follow from its chosen channel alone. */
  predicate Reserves(work: Work, schedules: map<int, seq<Slot>>, s: Settings, reserved: set<int>, made: seq<int>) {
    if work.streamable != Some(false) then made == []
    else
      || (made == [] && forall b | b in work.broadcasts :: !Confirms(work.title, work.broadcasts, schedules, s, b.channel))
      || (exists b | b in work.broadcasts :: ReservesOn(work, schedules, s, reserved, made, b.channel))
  }

  predicate ReservesOn(work: Work, schedules: map<int, seq<Slot>>, s: Settings, reserved: set<int>, made: seq<int>, channel: int) {
    && IsChosen(work.title, work.broadcasts, schedules, s, channel)
    && made == NewIds(Confirmed(work.title, OnChannel(work.broadcasts, channel), ScheduleOf(schedules, channel), s), reserved)
  }

  /** The program of one of the work's broadcasts on the channel. */
  predicate IsProgramOn(work: Work, schedules: map<int, seq<Slot>>, s: Settings, channel: int, id: int) {
    exists b, k: nat | b in work.broadcasts && b.channel == channel && channel in schedules && k < |schedules[channel]| ::
      IsTheProgram(work.title, b.start, schedules[channel], s, k) && schedules[channel][k].id == id
  }

  lemma ConfirmedOnIff(work: Work, schedules: map<int, seq<Slot>>, s: Settings, channel: int, id: int)
    ensures id in Confirmed(work.title, OnChannel(work.broadcasts, channel), ScheduleOf(schedules, channel), s) <==>
      IsProgramOn(work, schedules, s, channel, id)
  {
    ConfirmedIff(work.title, OnChannel(work.broadcasts, channel), ScheduleOf(schedules, channel), s, id);
    forall b ensures b in OnChannel(work.broadcasts, channel) <==> b in work.broadcasts && b.channel == channel {
      OnChannelIff(work.broadcasts, channel, b);
    }
    hide IsTheProgram, Confirmed, OnChannel;
  }

  /** The channel has a program of the work. */
  ghost predicate HasProgram(work: Work, schedules: map<int, seq<Slot>>, s: Settings, channel: int) {
    exists id :: IsProgramOn(work, schedules, s, channel, id)
  }

  lemma ConfirmsIff(work: Work, schedules: map<int, seq<Slot>>, s: Settings, channel: int)
    ensures Confirms(work.title, work.broadcasts, schedules, s, channel) <==> HasProgram(work, schedules, s, channel)
  {
    hide IsProgramOn, Confirmed;
    var ids := Confirmed(work.title, OnChannel(work.broadcasts, channel), ScheduleOf(schedules, channel), s);
    if ids != [] {
      ConfirmedOnIff(work, schedules, s, channel, ids[0]);
      assert IsProgramOn(work, schedules, s, channel, ids[0]);
    }
    if id :| IsProgramOn(work, schedules, s, channel, id) {
      ConfirmedOnIff(work, schedules, s, channel, id);
      assert id in ids;
    }
  }

  /** Exactly the channel's programs of the work that were not reserved yet. */
  ghost predicate TakesAllOf(work: Work, schedules: map<int, seq<Slot>>, s: Settings, reserved: set<int>, made: seq<int>, channel: int) {
    forall id :: id in made <==> IsProgramOn(work, schedules, s, channel, id) && id !in reserved
  }

  /** No channel with a program of the work is preferred to this one, which has one. */
  ghost predicate IsPreferred(work: Work, schedules: map<int, seq<Slot>>, s: Settings, channel: int) {
    && HasProgram(work, schedules, s, channel)
    && forall b | b in work.broadcasts && HasProgram(work, schedules, s, b.channel) :: Before(channel, b.channel)
  }

  /** What is reserved for a work: nothing if it can be streamed, or that is not known, or no channel has
      a program of it; else all programs of its preferred channel that were not reserved yet. */
  lemma ReservedIff(work: Work, schedules: map<int, seq<Slot>>, s: Settings, reserved: set<int>, made: seq<int>)
    requires Reserves(work, schedules, s, reserved, made)
    ensures work.streamable != Some(false) || (forall b | b in work.broadcasts :: !HasProgram(work, schedules, s, b.channel)) ==> made == []
    ensures work.streamable == Some(false) && (exists b | b in work.broadcasts :: HasProgram(work, schedules, s, b.channel)) ==>
      exists c | c in work.broadcasts :: IsPreferred(work, schedules, s, c.channel) && TakesAllOf(work, schedules, s, reserved, made, c.channel)
  {
    forall b | b in work.broadcasts ensures Confirms(work.title, work.broadcasts, schedules, s, b.channel) <==> HasProgram(work, schedules, s, b.channel) {
      ConfirmsIff(work, schedules, s, b.channel);
    }
    hide Confirms, HasProgram, Before, TakesAllOf;
    if work.streamable == Some(false) {
      if b :| b in work.broadcasts && ReservesOn(work, schedules, s, reserved, made, b.channel) {
        OnChannelIsAll(work, schedules, s, reserved, made, b.channel);
        assert IsPreferred(work, schedules, s, b.channel);
      }
    }
  }

  lemma OnChannelIsAll(work: Work, schedules: map<int, seq<Slot>>, s: Settings, reserved: set<int>, made: seq<int>, channel: int)
    requires ReservesOn(work, schedules, s, reserved, made, channel)
    ensures TakesAllOf(work, schedules, s, reserved, made, channel)
  {
    forall id ensures id in made <==> IsProgramOn(work, schedules, s, channel, id) && id !in reserved {
      ConfirmedOnIff(work, schedules, s, channel, id);
    }
  }

  method ReserveAll(ids: seq<int>, reserved: set<int>) returns (existing: set<int>, made: seq<int>)
    ensures made == NewIds(ids, reserved)
    ensures existing == reserved + set id | id in made
  {
    existing := reserved;
    made := [];
    for i := 0 to |ids|
      invariant made == NewIds(ids[..i], reserved)
      invariant existing == reserved + set id | id in made
    {
      assert ids[..i + 1][..i] == ids[..i];
      if ids[i] !in existing {
        existing := existing + {ids[i]};
        made := made + [ids[i]];
      }
    }
    assert ids[..|ids|] == ids;
  }

  /** The first channel in order that confirms anything is the chosen one. */
  lemma FirstConfirmingIsChosen(work: Work, schedules: map<int, seq<Slot>>, s: Settings, order: seq<int>, k: nat)
    requires Ordered(order) && k < |order|
    requires forall b | b in work.broadcasts :: b.channel in order
    requires Confirms(work.title, work.broadcasts, schedules, s, order[k])
    requires forall i | 0 <= i < k :: !Confirms(work.title, work.broadcasts, schedules, s, order[i])
    ensures IsChosen(work.title, work.broadcasts, schedules, s, order[k])
  {
    hide Confirms;
    forall b | b in work.broadcasts && Confirms(work.title, work.broadcasts, schedules, s, b.channel) ensures Before(order[k], b.channel) {
      var i :| 0 <= i < |order| && order[i] == b.channel;
    }
  }

  /** What the channels in order confirm: the first non-empty answer, and where it came from. */
  method ChooseChannel(work: Work, schedules: map<int, seq<Slot>>, s: Settings, groups: map<int, seq<Broadcast>>, order: seq<int>)
    returns (chosen: Option<nat>, ids: seq<int>)
    requires forall c | c in order :: c in groups && groups[c] == OnChannel(work.broadcasts, c)
    ensures chosen.Some? ==> chosen.value < |order| && ids != []
    ensures chosen.Some? ==>
      ids == Confirmed(work.title, OnChannel(work.broadcasts, order[chosen.value]), ScheduleOf(schedules, order[chosen.value]), s)
    ensures forall i | 0 <= i < (if chosen.Some? then chosen.value else |order|) :: !Confirms(work.title, work.broadcasts, schedules, s, order[i])
  {
    for k := 0 to |order|
      invariant forall i | 0 <= i < k :: !Confirms(work.title, work.broadcasts, schedules, s, order[i])
    {
      var channel := order[k];
      assert channel in order;
      ids := ConfirmChannel(work.title, groups[channel], ScheduleOf(schedules, channel), s);
      if ids != [] { return Some(k), ids; }
    }
    chosen, ids := None, [];
  }

  method SyncWork(work: Work, schedules: map<int, seq<Slot>>, s: Settings, reserved: set<int>) returns (existing: set<int>, made: seq<int>)
    ensures Reserves(work, schedules, s, reserved, made)
    ensures existing == reserved + set id | id in made
    ensures Distinct(made) && forall id | id in made :: id !in reserved
  {
    existing, made := reserved, [];
    if work.broadcasts == [] || work.streamable != Some(false) { return; }
    var groups, channels := GroupByChannel(work.broadcasts);
    var order := SortChannels(channels);
    forall c ensures c in order <==> exists b | b in work.broadcasts :: b.channel == c {
      OnChannelHas(work.broadcasts, c);
      assert c in order <==> c in groups;
    }
    var chosen, ids := ChooseChannel(work, schedules, s, groups, order);
    if chosen.None? {
      forall b | b in work.broadcasts ensures !Confirms(work.title, work.broadcasts, schedules, s, b.channel) {
        assert b.channel in order;
      }
    } else {
      existing, made := ReserveAll(ids, reserved);
      var channel := order[chosen.value];
      FirstConfirmingIsChosen(work, schedules, s, order, chosen.value);
      ghost var b :| b in work.broadcasts && b.channel == channel;
      assert ReservesOn(work, schedules, s, reserved, made, b.channel);
    }
  }

  function Flat(lists: seq<seq<int>>): seq<int> {
    if lists == [] then [] else Flat(lists[..|lists| - 1]) + lists[|lists| - 1]
  }

  lemma FlatGrows(lists: seq<seq<int>>, more: seq<int>)
    ensures Flat(lists + [more]) == Flat(lists) + more
    ensures forall i | 0 <= i <= |lists| :: (lists + [more])[..i] == lists[..i]
  {
    assert (lists + [more])[..|lists|] == lists;
  }

  lemma DistinctConcat(a: seq<int>, b: seq<int>)
    requires Distinct(a) && Distinct(b) && forall id | id in b :: id !in a
    ensures Distinct(a + b)
  {
    forall i, j | 0 <= i < j < |a + b| ensures (a + b)[i] != (a + b)[j] {
      if i < |a| <= j { assert b[j - |a|] in b && a[i] in a; }
    }
  }

  /** Work k was served with everything reserved before it. */
  predicate ServedInTurn(works: seq<Work>, schedules: map<int, seq<Slot>>, s: Settings, initial: set<int>, made: seq<seq<int>>, k: nat)
    requires k < |works| && k < |made|
  {
    Reserves(works[k], schedules, s, initial + Reserved(made[..k]), made[k])
  }

  function Reserved(made: seq<seq<int>>): set<int> { set id | id in Flat(made) }

  /** The whole run: no program is reserved twice or when it already was, and each work's
      reservations follow from its own chosen channel given what was reserved before it. */
  method Sync(works: seq<Work>, schedules: map<int, seq<Slot>>, s: Settings, initial: set<int>) returns (existing: set<int>, made: seq<seq<int>>)
    ensures |made| == |works|
    ensures forall k | 0 <= k < |works| :: ServedInTurn(works, schedules, s, initial, made, k)
    ensures Distinct(Flat(made)) && Reserved(made) !! initial
    ensures existing == initial + Reserved(made)
  {
    hide Reserves;
    existing, made := initial, [];
    for k := 0 to |works|
      invariant |made| == k
      invariant forall i | 0 <= i < k :: ServedInTurn(works, schedules, s, initial, made, i)
      invariant Distinct(Flat(made)) && Reserved(made) !! initial
      invariant existing == initial + Reserved(made)
    {
      var more;
      existing, more := SyncWork(works[k], schedules, s, existing);
      FlatGrows(made, more);
      ghost var before := made;
      made := made + [more];
      assert Reserved(made) == Reserved(before) + set id | id in more;
      assert forall id | id in more :: id !in Reserved(before);
      DistinctConcat(Flat(before), more);
      forall i | 0 <= i < k ensures ServedInTurn(works, schedules, s, initial, made, i) {
        assert ServedInTurn(works, schedules, s, initial, before, i);
      }
    }
  }
}
