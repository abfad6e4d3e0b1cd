/** Flat candidate storage: slot band * binCount + bin, block-local accumulators and the open
    window they are merged into, related to the ordered candidate map they stand for. */
module BearingFlatStorage {
  import opened Common
  import opened Division
  import opened FrequencyBins
  import opened BearingModel

  // ---- flat index against map key ------------------------------------------------------

  function SlotCount(cfg: Config): nat
    requires cfg.bins.binCount > 0
  {
    MulMonotone(0, cfg.bandCapacity, cfg.bins.binCount);
    cfg.bandCapacity * cfg.bins.binCount
  }

  predicate KeyFits(cfg: Config, k: Key) {
    cfg.BandInCapacity(k.bandIndex) && k.frequencyBin < cfg.bins.binCount
  }

  function SlotOf(cfg: Config, k: Key): (slot: nat)
    requires KeyFits(cfg, k)
    ensures slot < SlotCount(cfg)
  {
    MulMonotone(0, k.bandIndex, cfg.bins.binCount);
    MulMonotone(k.bandIndex + 1, cfg.bandCapacity, cfg.bins.binCount);
    assert (k.bandIndex + 1) * cfg.bins.binCount == k.bandIndex * cfg.bins.binCount + cfg.bins.binCount;
    k.bandIndex * cfg.bins.binCount + k.frequencyBin
  }

  function KeyOf(cfg: Config, slot: nat): (k: Key)
    requires cfg.bins.binCount > 0 && slot < SlotCount(cfg)
    ensures KeyFits(cfg, k)
  {
    QuotientBounds(slot, cfg.bins.binCount);
    MulStrict(slot / cfg.bins.binCount, cfg.bandCapacity, cfg.bins.binCount);
    QuotientAtLeast(slot, cfg.bins.binCount, 0);
    Key(slot / cfg.bins.binCount, slot % cfg.bins.binCount)
  }

  lemma SlotOfKeyOf(cfg: Config, slot: nat)
    requires cfg.bins.binCount > 0 && slot < SlotCount(cfg)
    ensures SlotOf(cfg, KeyOf(cfg, slot)) == slot
  {
  }

  lemma KeyOfSlotOf(cfg: Config, k: Key)
    requires KeyFits(cfg, k)
    ensures KeyOf(cfg, SlotOf(cfg, k)) == k
  {
    var f := cfg.bins.binCount;
    QuotientUnique(SlotOf(cfg, k), f, k.bandIndex);
  }

  /** Walking slots upwards is walking keys in map order. */
  lemma SlotOrderIsKeyOrder(cfg: Config, a: Key, b: Key)
    requires KeyFits(cfg, a) && KeyFits(cfg, b)
    ensures SlotOf(cfg, a) < SlotOf(cfg, b) <==> a.Less(b)
  {
    var f := cfg.bins.binCount;
    if a.bandIndex < b.bandIndex {
      MulMonotone(a.bandIndex + 1, b.bandIndex, f);
      assert (a.bandIndex + 1) * f == a.bandIndex * f + f;
    } else if b.bandIndex < a.bandIndex {
      MulMonotone(b.bandIndex + 1, a.bandIndex, f);
      assert (b.bandIndex + 1) * f == b.bandIndex * f + f;
    }
  }

  // ---- accumulators --------------------------------------------------------------------

  datatype LocalCandidate = LocalCandidate(
    bandIndex: int, frequencyBin: nat,
    firstSampleIndex: U64, lastSampleIndex: U64,
    centerFrequencyHz: int,
    beam0Peak: U16, beam1Peak: U16,
    hasBeam0: bool, hasBeam1: bool, hasSamples: bool)

  const EMPTY_LOCAL := LocalCandidate(0, 0, 0, 0, 0, 0, 0, false, false, false)

  datatype OpenWindow = OpenWindow(
    index: U64, firstSampleIndex: U64, lastSampleIndex: U64, azimuthDeg: real,
    slots: seq<Candidate>, used: seq<bool>, usedCount: nat)

  /** A local accumulator after one more sample. */
  function AddLocal(cfg: Config, l: LocalCandidate, key: Key, s: Sample): LocalCandidate {
    var based :=
      if !l.hasSamples then
        l.(hasSamples := true, bandIndex := key.bandIndex, frequencyBin := key.frequencyBin,
           centerFrequencyHz := CenterFrequencyForBin(cfg.bins, key.frequencyBin),
           firstSampleIndex := s.sampleIndex, lastSampleIndex := s.sampleIndex)
      else
        l.(firstSampleIndex := Min(l.firstSampleIndex, s.sampleIndex),
           lastSampleIndex := Max(l.lastSampleIndex, s.sampleIndex));
    var amplitude := ClampAmplitude(s.amplitude);
    if s.beamIndex == 0 then based.(beam0Peak := Max(based.beam0Peak, amplitude), hasBeam0 := true)
    else if s.beamIndex == 1 then based.(beam1Peak := Max(based.beam1Peak, amplitude), hasBeam1 := true)
    else based
  }

  /** A slot's first merge: identity and bounds are copied, peaks and flags joined with the blank slot's. */
  function AdoptLocal(destination: Candidate, l: LocalCandidate, azimuthDeg: real): Candidate {
    JoinPeaks(destination.(bandIndex := l.bandIndex, frequencyBin := l.frequencyBin,
                           centerFrequencyHz := l.centerFrequencyHz, antennaAzimuthDeg := azimuthDeg,
                           firstSampleIndex := l.firstSampleIndex, lastSampleIndex := l.lastSampleIndex,
                           hasSamples := true), l)
  }

  function WidenByLocal(destination: Candidate, l: LocalCandidate): Candidate {
    JoinPeaks(destination.(firstSampleIndex := Min(destination.firstSampleIndex, l.firstSampleIndex),
                           lastSampleIndex := Max(destination.lastSampleIndex, l.lastSampleIndex)), l)
  }

  function JoinPeaks(destination: Candidate, l: LocalCandidate): Candidate {
    destination.(beam0Peak := Max(destination.beam0Peak, l.beam0Peak),
                 beam1Peak := Max(destination.beam1Peak, l.beam1Peak),
                 hasBeam0 := destination.hasBeam0 || l.hasBeam0,
                 hasBeam1 := destination.hasBeam1 || l.hasBeam1)
  }

  /** Buffers of the right size, unused slots and untouched accumulators blank. */
  ghost predicate StorageOk(cfg: Config, w: OpenWindow, local: seq<LocalCandidate>) {
    && cfg.bins.binCount > 0
    && |w.slots| == |w.used| == |local| == SlotCount(cfg)
    && (forall i :: 0 <= i < |local| && !w.used[i] ==> w.slots[i] == EMPTY_CANDIDATE)
    && (forall i :: 0 <= i < |local| && w.used[i] ==> w.slots[i].hasSamples)
    && (forall i :: 0 <= i < |local| && !local[i].hasSamples ==> local[i] == EMPTY_LOCAL)
    && (w.usedCount == 0 <==> forall i :: 0 <= i < |w.used| ==> !w.used[i])
  }

  predicate Occupied(w: OpenWindow, local: seq<LocalCandidate>, i: nat)
    requires i < |w.used| && i < |local|
  {
    w.used[i] || local[i].hasSamples
  }

  /** The candidate a slot stands for: the merged one joined with what is still local. */
  function Standing(w: OpenWindow, local: seq<LocalCandidate>, i: nat): Candidate
    requires i < |w.used| && i < |local| && i < |w.slots|
  {
    if !local[i].hasSamples then w.slots[i]
    else if w.used[i] then WidenByLocal(w.slots[i], local[i])
    else AdoptLocal(w.slots[i], local[i], w.azimuthDeg)
  }

  /** What each slot holds, if anything. */
  ghost function View(w: OpenWindow, local: seq<LocalCandidate>): (v: seq<Option<Candidate>>)
    requires |w.slots| == |w.used| == |local|
    ensures |v| == |local|
  {
    seq(|local|, i requires 0 <= i < |local| =>
      if Occupied(w, local, i) then Some(Standing(w, local, i)) else None)
  }

  /** The slots stand for exactly this candidate map. */
  ghost predicate Mirrors(cfg: Config, v: seq<Option<Candidate>>, m: map<Key, Candidate>)
    requires cfg.bins.binCount > 0 && |v| == SlotCount(cfg)
  {
    && (forall k :: k in m ==> KeyFits(cfg, k) && v[SlotOf(cfg, k)] == Some(m[k]))
    && (forall i :: 0 <= i < |v| && v[i].Some? ==> KeyOf(cfg, i) in m)
  }

  /** Adding to the accumulator and merging later is merging first and adding to the slot. */
  lemma AddCommutesWithMerge(cfg: Config, slot: Candidate, used: bool, l: LocalCandidate, key: Key, azimuthDeg: real, s: Sample)
    requires !used ==> slot == EMPTY_CANDIDATE
    requires used ==> slot.hasSamples
    requires !l.hasSamples ==> l == EMPTY_LOCAL
    ensures var after := AddLocal(cfg, l, key, s);
            && after.hasSamples
            && (if used then WidenByLocal(slot, after) else AdoptLocal(slot, after, azimuthDeg))
               == AddSample(cfg,
                            if !l.hasSamples then slot
                            else if used then WidenByLocal(slot, l) else AdoptLocal(slot, l, azimuthDeg),
                            key, azimuthDeg, s)
  {
  }

  lemma MirrorsUpdate(cfg: Config, v: seq<Option<Candidate>>, m: map<Key, Candidate>, key: Key, c: Candidate)
    requires cfg.bins.binCount > 0 && |v| == SlotCount(cfg) && Mirrors(cfg, v, m) && KeyFits(cfg, key)
    ensures Mirrors(cfg, v[SlotOf(cfg, key) := Some(c)], m[key := c])
  {
    hide SlotOf, KeyOf, SlotCount;
    KeyOfSlotOf(cfg, key);
    forall k | k in m && k != key ensures SlotOf(cfg, k) != SlotOf(cfg, key) {
      KeyOfSlotOf(cfg, k);
    }
  }

  lemma MirrorsAt(cfg: Config, v: seq<Option<Candidate>>, m: map<Key, Candidate>, key: Key)
    requires cfg.bins.binCount > 0 && |v| == SlotCount(cfg) && Mirrors(cfg, v, m) && KeyFits(cfg, key)
    ensures v[SlotOf(cfg, key)] == if key in m then Some(m[key]) else None
  {
    KeyOfSlotOf(cfg, key);
  }

  function Held(slot: Option<Candidate>): Candidate { if slot.Some? then slot.value else EMPTY_CANDIDATE }

  /** Adding to one accumulator adds to what its slot holds, and to no other slot. */
  lemma ViewAfterAdd(cfg: Config, w: OpenWindow, local: seq<LocalCandidate>, i: nat, key: Key, s: Sample)
    requires StorageOk(cfg, w, local) && i < |local|
    ensures var after := local[i := AddLocal(cfg, local[i], key, s)];
            && after[i].hasSamples
            && StorageOk(cfg, w, after)
            && View(w, after) == View(w, local)[i := Some(AddSample(cfg, Held(View(w, local)[i]), key, w.azimuthDeg, s))]
  {
    hide SlotCount, AddSample, AddLocal, WidenByLocal, AdoptLocal;
    AddCommutesWithMerge(cfg, w.slots[i], w.used[i], local[i], key, w.azimuthDeg, s);
  }

  /** Adding a sample to its accumulator mirrors adding it to the map. */
  lemma MirrorsAdd(cfg: Config, w: OpenWindow, local: seq<LocalCandidate>, m: map<Key, Candidate>, key: Key, s: Sample)
    requires StorageOk(cfg, w, local) && Mirrors(cfg, View(w, local), m) && KeyFits(cfg, key)
    ensures var after := local[SlotOf(cfg, key) := AddLocal(cfg, local[SlotOf(cfg, key)], key, s)];
            var slot := if key in m then m[key] else EMPTY_CANDIDATE;
            && after[SlotOf(cfg, key)].hasSamples
            && StorageOk(cfg, w, after)
            && Mirrors(cfg, View(w, after), m[key := AddSample(cfg, slot, key, w.azimuthDeg, s)])
  {
    hide SlotOf, KeyOf, SlotCount, AddSample, AddLocal, View;
    ViewAfterAdd(cfg, w, local, SlotOf(cfg, key), key, s);
    MirrorsAt(cfg, View(w, local), m, key);
    MirrorsUpdate(cfg, View(w, local), m, key, AddSample(cfg, Held(View(w, local)[SlotOf(cfg, key)]), key, w.azimuthDeg, s));
  }

  /** A window with the accumulators named so far merged into its slots. */
  ghost predicate PartlyMerged(merged: OpenWindow, w: OpenWindow, local: seq<LocalCandidate>, done: seq<nat>) {
    && |merged.slots| == |merged.used| == |local| == |w.slots| == |w.used|
    && merged.index == w.index && merged.azimuthDeg == w.azimuthDeg
    && (forall i :: 0 <= i < |local| ==>
          if i in done then merged.used[i] && merged.slots[i] == Standing(w, local, i)
          else merged.used[i] == w.used[i] && merged.slots[i] == w.slots[i])
    && (merged.usedCount == 0 <==> forall i :: 0 <= i < |merged.used| ==> !merged.used[i])
  }

  /** Merging one more accumulator: its slot is taken into use, or widened. */
  lemma MergeAdvances(merged: OpenWindow, w: OpenWindow, local: seq<LocalCandidate>, done: seq<nat>, index: nat)
    requires PartlyMerged(merged, w, local, done) && index < |local| && index !in done && local[index].hasSamples
    ensures merged.used[index] ==>
              PartlyMerged(merged.(slots := merged.slots[index := WidenByLocal(merged.slots[index], local[index])]), w, local, done + [index])
    ensures !merged.used[index] ==>
              PartlyMerged(merged.(used := merged.used[index := true], usedCount := merged.usedCount + 1,
                                   slots := merged.slots[index := AdoptLocal(merged.slots[index], local[index], merged.azimuthDeg)]),
                           w, local, done + [index])
  {
    hide WidenByLocal, AdoptLocal;
    if !merged.used[index] { assert merged.used[index := true][index]; }
  }

  /** With all accumulators merged and blank again, the slots stand for what they stood for before. */
  lemma MergedStandsForAll(cfg: Config, merged: OpenWindow, w: OpenWindow, local: seq<LocalCandidate>, done: seq<nat>,
                           blank: seq<LocalCandidate>)
    requires StorageOk(cfg, w, local) && PartlyMerged(merged, w, local, done)
    requires forall i :: 0 <= i < |local| ==> (local[i].hasSamples <==> i in done)
    requires |blank| == |local| && forall i :: 0 <= i < |blank| ==> blank[i] == EMPTY_LOCAL
    ensures StorageOk(cfg, merged, blank) && View(merged, blank) == View(w, local)
  {
    hide SlotCount, JoinPeaks;
    forall i | 0 <= i < |local|
      ensures merged.used[i] ==> merged.slots[i].hasSamples
      ensures !merged.used[i] ==> merged.slots[i] == EMPTY_CANDIDATE
      ensures Occupied(merged, blank, i) == Occupied(w, local, i) && Standing(merged, blank, i) == Standing(w, local, i)
    {
      JoinedHasSamples(w.slots[i], local[i], w.azimuthDeg);
    }
  }

  lemma JoinedHasSamples(c: Candidate, l: LocalCandidate, azimuthDeg: real)
    ensures AdoptLocal(c, l, azimuthDeg).hasSamples && (c.hasSamples ==> WidenByLocal(c, l).hasSamples)
  {
  }

  /** Keys of the used slots from a slot upwards. */
  ghost function UsedKeys(cfg: Config, used: seq<bool>, from: nat): seq<Key>
    requires cfg.bins.binCount > 0 && |used| == SlotCount(cfg) && from <= |used|
    decreases |used| - from
  {
    if from == |used| then []
    else (if used[from] then [KeyOf(cfg, from)] else []) + UsedKeys(cfg, used, from + 1)
  }

  /** Slot order enumerates the keys of any set in map order. */
  lemma UsedKeysAreSorted(cfg: Config, used: seq<bool>, from: nat, ks: set<Key>)
    requires cfg.bins.binCount > 0 && |used| == SlotCount(cfg) && from <= |used|
    requires forall k :: k in ks ==> KeyFits(cfg, k) && SlotOf(cfg, k) >= from && used[SlotOf(cfg, k)]
    requires forall i :: from <= i < |used| && used[i] ==> KeyOf(cfg, i) in ks
    ensures UsedKeys(cfg, used, from) == SortedKeys(ks)
    decreases |used| - from
  {
    hide KeyFits, SlotOf, KeyOf, SlotCount;
    if from == |used| {
      assert forall k :: k in ks ==> false;
    } else if used[from] {
      HeadIsLeast(cfg, used, from, ks);
      UsedKeysAreSorted(cfg, used, from + 1, ks - {KeyOf(cfg, from)});
    } else {
      UsedKeysAreSorted(cfg, used, from + 1, ks);
    }
  }

  /** The key of the first used slot is the least, and without it the used slots above are left. */
  lemma HeadIsLeast(cfg: Config, used: seq<bool>, from: nat, ks: set<Key>)
    requires cfg.bins.binCount > 0 && |used| == SlotCount(cfg) && from < |used| && used[from]
    requires forall k :: k in ks ==> KeyFits(cfg, k) && SlotOf(cfg, k) >= from && used[SlotOf(cfg, k)]
    requires forall i :: from <= i < |used| && used[i] ==> KeyOf(cfg, i) in ks
    ensures var head := KeyOf(cfg, from);
            && ks != {} && LeastKey(ks) == head
            && (forall k :: k in ks - {head} ==> SlotOf(cfg, k) >= from + 1)
            && (forall i :: from + 1 <= i < |used| && used[i] ==> KeyOf(cfg, i) in ks - {head})
  {
    var head := KeyOf(cfg, from);
    SlotOfKeyOf(cfg, from);
    forall k | k in ks && k != head ensures head.Less(k) && SlotOf(cfg, k) >= from + 1 {
      KeyOfSlotOf(cfg, k);
      SlotOrderIsKeyOrder(cfg, head, k);
    }
    assert head in ks;
    forall i | from + 1 <= i < |used| && used[i] ensures KeyOf(cfg, i) in ks - {head} {
      SlotOfKeyOf(cfg, i);
    }
    hide KeyFits, SlotOf, KeyOf;
    var least := LeastKey(ks);
  }

  /** Keys of the used slots below a slot, as a walk upwards meets them. */
  ghost function UsedKeysBelow(cfg: Config, used: seq<bool>, to: nat): seq<Key>
    requires cfg.bins.binCount > 0 && |used| == SlotCount(cfg) && to <= |used|
  {
    if to == 0 then []
    else if used[to - 1] then UsedKeysBelow(cfg, used, to - 1) + [KeyOf(cfg, to - 1)]
    else UsedKeysBelow(cfg, used, to - 1)
  }

  lemma {:induction false} UsedKeysSplit(cfg: Config, used: seq<bool>, at: nat)
    requires cfg.bins.binCount > 0 && |used| == SlotCount(cfg) && at <= |used|
    ensures UsedKeysBelow(cfg, used, at) + UsedKeys(cfg, used, at) == UsedKeys(cfg, used, 0)
  {
    hide SlotCount, KeyOf;
    if at > 0 {
      UsedKeysSplit(cfg, used, at - 1);
      var below, above := UsedKeysBelow(cfg, used, at - 1), UsedKeys(cfg, used, at);
      if used[at - 1] {
        var k := KeyOf(cfg, at - 1);
        assert (below + [k]) + above == below + ([k] + above);
      } else {
        assert UsedKeys(cfg, used, at - 1) == [] + above == above;
      }
    }
  }

  /** In a mirrored window with nothing left to merge, the used slots hold exactly the map's candidates. */
  lemma UsedSlotsHoldTheMap(cfg: Config, w: OpenWindow, local: seq<LocalCandidate>, m: map<Key, Candidate>)
    requires StorageOk(cfg, w, local) && Mirrors(cfg, View(w, local), m)
    requires forall i :: 0 <= i < |local| ==> local[i] == EMPTY_LOCAL
    ensures forall i :: 0 <= i < |w.used| && w.used[i] ==> KeyOf(cfg, i) in m && m[KeyOf(cfg, i)] == w.slots[i]
    ensures forall k :: k in m ==> KeyFits(cfg, k) && w.used[SlotOf(cfg, k)]
  {
    hide SlotOf, KeyOf, SlotCount;
    var v := View(w, local);
    forall i | 0 <= i < |w.used| && w.used[i]
      ensures KeyOf(cfg, i) in m && m[KeyOf(cfg, i)] == w.slots[i]
    {
      assert v[i] == Some(w.slots[i]);
      SlotOfKeyOf(cfg, i);
    }
    forall k | k in m ensures w.used[SlotOf(cfg, k)] {
      assert v[SlotOf(cfg, k)].Some?;
    }
  }

  /** Walking the used slots upwards lists the map in its order. */
  lemma UsedKeysListTheMap(cfg: Config, w: OpenWindow, local: seq<LocalCandidate>, m: map<Key, Candidate>)
    requires StorageOk(cfg, w, local) && Mirrors(cfg, View(w, local), m)
    requires forall i :: 0 <= i < |local| ==> local[i] == EMPTY_LOCAL
    ensures UsedKeysBelow(cfg, w.used, |w.used|) == SortedKeys(m.Keys)
    ensures forall i :: 0 <= i < |w.used| && w.used[i] ==> KeyOf(cfg, i) in m && m[KeyOf(cfg, i)] == w.slots[i]
  {
    hide SlotOf, KeyOf, SlotCount, SortedKeys, UsedKeys, UsedKeysBelow, View, Mirrors;
    UsedSlotsHoldTheMap(cfg, w, local, m);
    UsedKeysAreSorted(cfg, w.used, 0, m.Keys);
    UsedKeysSplit(cfg, w.used, |w.used|);
    NoUsedKeysAtTheTop(cfg, w.used);
  }

  lemma NothingUsedNothingMapped(cfg: Config, w: OpenWindow, local: seq<LocalCandidate>, m: map<Key, Candidate>)
    requires StorageOk(cfg, w, local) && Mirrors(cfg, View(w, local), m)
    requires forall i :: 0 <= i < |local| ==> local[i] == EMPTY_LOCAL
    ensures w.usedCount == 0 <==> m == map[]
  {
    hide SlotOf, KeyOf, SlotCount, View, Mirrors;
    UsedSlotsHoldTheMap(cfg, w, local, m);
    if m != map[] {
      var k :| k in m;
      assert w.used[SlotOf(cfg, k)];
    }
  }

  lemma NoUsedKeysAtTheTop(cfg: Config, used: seq<bool>)
    requires cfg.bins.binCount > 0 && |used| == SlotCount(cfg)
    ensures UsedKeys(cfg, used, |used|) == []
  {
  }
}
