/** Stepping between recorded sessions in order of their start. */
module WaterfallSessions {
  import opened Common
  import opened WaterfallRows

  /** Ids stand for the id strings in their order. */
  datatype Metadata = Metadata(id: nat, startUtcMs: int, endUtcMs: int, rowPeriodMs: int, closed: bool)

  predicate Earlier(a: Metadata, b: Metadata) { a.startUtcMs < b.startUtcMs || (a.startUtcMs == b.startUtcMs && a.id < b.id) }

  ghost predicate UniqueIds(ss: seq<Metadata>) { forall i, j :: 0 <= i < j < |ss| ==> ss[i].id != ss[j].id }

  /** The nearest session before another. */
  ghost predicate IsPrevious(ss: seq<Metadata>, current: Metadata, p: Metadata) {
    p in ss && Earlier(p, current) && forall s :: s in ss && Earlier(s, current) ==> s == p || Earlier(s, p)
  }

  /** The nearest session after another. */
  ghost predicate IsNext(ss: seq<Metadata>, current: Metadata, n: Metadata) {
    n in ss && Earlier(current, n) && forall s :: s in ss && Earlier(current, s) ==> s == n || Earlier(n, s)
  }

  ghost predicate IsLatest(ss: seq<Metadata>, m: Metadata) { m in ss && forall s :: s in ss ==> s == m || Earlier(s, m) }

  /** Distinct sessions are ordered exactly one way or the other, by their start before their id. */
  lemma Ordered(ss: seq<Metadata>, a: Metadata, b: Metadata)
    requires UniqueIds(ss) && a in ss && b in ss
    ensures a == b || Earlier(a, b) || Earlier(b, a)
    ensures !(Earlier(a, b) && Earlier(b, a)) && !Earlier(a, a)
    ensures a.startUtcMs < b.startUtcMs ==> Earlier(a, b)
  {
    var i :| 0 <= i < |ss| && ss[i] == a;
    var j :| 0 <= j < |ss| && ss[j] == b;
    assert i == j || a.id != b.id;
  }

  /** Going forward and then back returns to where one was, and the other way round. */
  lemma NextUndoesPrevious(ss: seq<Metadata>, a: Metadata, b: Metadata)
    requires UniqueIds(ss) && a in ss && b in ss
    ensures IsNext(ss, a, b) <==> IsPrevious(ss, b, a)
  {
    forall s | s in ss ensures (s == a || Earlier(s, a) || Earlier(a, s)) && (s == b || Earlier(s, b) || Earlier(b, s)) {
      Ordered(ss, s, a);
      Ordered(ss, s, b);
    }
  }

  class SessionIndex {
    var sessions: seq<Metadata>
    /** Each session's rows, by its id. */
    var rows: map<nat, seq<Row>>

    ghost predicate Valid()
      reads this
    {
      UniqueIds(sessions) && forall s :: s in sessions ==> s.id in rows
    }

    constructor ()
      ensures Valid() && sessions == [] && rows == map[]
    {
      sessions, rows := [], map[];
    }

    method FindSessionIndex(id: nat) returns (index: int)
      ensures -1 <= index < |sessions|
      ensures if index >= 0 then sessions[index].id == id else forall i :: 0 <= i < |sessions| ==> sessions[i].id != id
    {
      for i := 0 to |sessions|
        invariant forall j :: 0 <= j < i ==> sessions[j].id != id
      {
        if sessions[i].id == id {
          return i;
        }
      }
      return -1;
    }

    /** What is stored for a session that starts: open, with an end and a positive row period. */
    static function Started(m: Metadata): Metadata {
      m.(endUtcMs := if m.endUtcMs <= 0 then m.startUtcMs else m.endUtcMs, rowPeriodMs := Max(1, m.rowPeriodMs), closed := false)
    }

    /** A session replaces the one with its id, whose rows go; the vector's own order is not relied on. */
    method StartSession(m: Metadata) returns (stored: Metadata)
      requires Valid()
      modifies this
      ensures Valid() && stored in sessions && stored.id == m.id && stored.startUtcMs == m.startUtcMs && !stored.closed
      ensures stored.endUtcMs == m.endUtcMs > 0 || (m.endUtcMs <= 0 && stored.endUtcMs == m.startUtcMs)
      ensures stored.rowPeriodMs == m.rowPeriodMs >= 1 || (m.rowPeriodMs < 1 && stored.rowPeriodMs == 1)
      ensures rows == old(rows)[m.id := []]
      ensures forall s :: s in old(sessions) && s.id != m.id ==> s in sessions
      ensures forall s :: s in sessions && s.id != m.id ==> s in old(sessions)
    {
      stored := Started(m);
      var index := FindSessionIndex(m.id);
      ghost var before := sessions;
      if index >= 0 {
        sessions := sessions[index := stored];
        assert sessions[index] == stored;
      } else {
        sessions := sessions + [stored];
        assert sessions[|before|] == stored;
      }
      rows := rows[m.id := []];
      forall s | s in before && s.id != m.id ensures s in sessions {
        var i :| 0 <= i < |before| && before[i] == s;
        assert sessions[i] == s;
      }
    }

    method LatestSession() returns (latest: Option<Metadata>)
      requires Valid()
      ensures if sessions == [] then latest == None else latest.Some? && IsLatest(sessions, latest.value)
    {
      if |sessions| == 0 {
        return None;
      }
      var best := sessions[0];
      for i := 1 to |sessions|
        invariant best in sessions && forall j :: 0 <= j < i ==> sessions[j] == best || Earlier(sessions[j], best)
      {
        Ordered(sessions, sessions[i], best);
        if Earlier(best, sessions[i]) {
          best := sessions[i];
        }
      }
      return Some(best);
    }

    /** An unknown session steps back to the latest one. */
    method PreviousSession(id: nat) returns (previous: Option<Metadata>)
      requires Valid()
      ensures (forall s :: s in sessions ==> s.id != id) ==>
                if sessions == [] then previous == None else previous.Some? && IsLatest(sessions, previous.value)
      ensures forall current :: current in sessions && current.id == id ==>
                if previous.Some? then IsPrevious(sessions, current, previous.value)
                else forall s :: s in sessions ==> !Earlier(s, current)
    {
      var currentIndex := FindSessionIndex(id);
      if currentIndex < 0 {
        previous := LatestSession();
        return;
      }
      var current := sessions[currentIndex];
      previous := None;
      for i := 0 to |sessions|
        invariant previous.None? ==> forall j :: 0 <= j < i ==> !Earlier(sessions[j], current)
        invariant previous.Some? ==>
                    previous.value in sessions && Earlier(previous.value, current)
                    && forall j :: 0 <= j < i && Earlier(sessions[j], current) ==> sessions[j] == previous.value || Earlier(sessions[j], previous.value)
      {
        var candidate := sessions[i];
        if previous.Some? { Ordered(sessions, candidate, previous.value); }
        if candidate.id == id || !Earlier(candidate, current) {
          continue;
        }
        if previous.None? || Earlier(previous.value, candidate) {
          previous := Some(candidate);
        }
      }
      forall other | other in sessions && other.id == id ensures other == current { Ordered(sessions, other, current); }
    }

    method NextSession(id: nat) returns (next: Option<Metadata>)
      requires Valid()
      ensures (forall s :: s in sessions ==> s.id != id) ==> next == None
      ensures forall current :: current in sessions && current.id == id ==>
                if next.Some? then IsNext(sessions, current, next.value)
                else forall s :: s in sessions ==> !Earlier(current, s)
    {
      next := None;
      var currentIndex := FindSessionIndex(id);
      if currentIndex < 0 {
        return;
      }
      var current := sessions[currentIndex];
      for i := 0 to |sessions|
        invariant next.None? ==> forall j :: 0 <= j < i ==> !Earlier(current, sessions[j])
        invariant next.Some? ==>
                    next.value in sessions && Earlier(current, next.value)
                    && forall j :: 0 <= j < i && Earlier(current, sessions[j]) ==> sessions[j] == next.value || Earlier(next.value, sessions[j])
      {
        var candidate := sessions[i];
        if next.Some? { Ordered(sessions, candidate, next.value); }
        if candidate.id == id || !Earlier(current, candidate) {
          continue;
        }
        if next.None? || Earlier(candidate, next.value) {
          next := Some(candidate);
        }
      }
      forall other | other in sessions && other.id == id ensures other == current { Ordered(sessions, other, current); }
    }
  }
}
