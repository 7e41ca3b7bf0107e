/**
 * The `Tab` class of `views/TabComponent.tsx`: the sessions of one tab, the
 * active one, and the layout map whose entry `r` is the number of session
 * columns in row `r`.
 *
 * Session listeners, jobs and window dimensions are outside the model; a
 * session keeps only the position it was created at.
 */
module Tabs {
  import opened Wrappers
  import opened Seqs

  /** `Positions`: a column (`left`) within a row (`top`). */
  datatype Position = Position(left: int, top: int)

  const Origin := Position(0, 0)

  class Session {
    const position: Position

    constructor (position: Position)
      ensures this.position == position
    {
      this.position := position;
    }
  }

  /** Every row has at least one column and the position names an existing cell. */
  predicate WellFormedLayout(viewMap: seq<int>, active: Position)
  {
    && |viewMap| >= 1
    && (forall r :: 0 <= r < |viewMap| ==> viewMap[r] >= 1)
    && 0 <= active.top < |viewMap|
    && 0 <= active.left < viewMap[active.top]
  }

  /**
   * `updateViewMap`: the layout after splitting the active cell, and the new
   * active position. A horizontal split adds a column to the active row; a
   * vertical split inserts a one-column row right below it when a row follows
   * with a truthy count, and appends one otherwise; any other split type
   * changes nothing and activates the origin.
   */
  function UpdatedViewMap(positionType: string, viewMap: seq<int>, active: Position): (r: (seq<int>, Position))
    requires 0 <= active.top < |viewMap|
    ensures positionType == "horizontal" ==>
              && r.0 == viewMap[active.top := viewMap[active.top] + 1]
              && r.1 == Position(active.left + 1, active.top)
    ensures positionType == "vertical" ==>
              && r.1 == Position(0, active.top + 1)
              && (active.top + 1 < |viewMap| && viewMap[active.top + 1] != 0 ==>
                    r.0 == viewMap[..active.top + 1] + [1] + viewMap[active.top + 1..])
              && (!(active.top + 1 < |viewMap| && viewMap[active.top + 1] != 0) ==> r.0 == viewMap + [1])
    ensures positionType != "horizontal" && positionType != "vertical" ==> r == (viewMap, Origin)
  {
    if positionType == "horizontal" then
      (viewMap[active.top := viewMap[active.top] + 1], Position(active.left + 1, active.top))
    else if positionType == "vertical" then
      var next := active.top + 1;
      if next < |viewMap| && viewMap[next] != 0 then
        (viewMap[..next] + [1] + viewMap[next..], Position(0, next))
      else
        (viewMap + [1], Position(0, next))
    else
      (viewMap, Origin)
  }

  /** The total number of cells in a layout. */
  function Cells(viewMap: seq<int>): int
  {
    if viewMap == [] then 0 else viewMap[0] + Cells(viewMap[1..])
  }

  lemma {:induction false} CellsAppend(a: seq<int>, b: seq<int>)
    ensures Cells(a + b) == Cells(a) + Cells(b)
  {
    if a != [] {
      assert (a + b)[0] == a[0] && (a + b)[1..] == a[1..] + b;
      CellsAppend(a[1..], b);
    } else {
      assert a + b == b;
    }
  }

  lemma {:induction false} CellsIncrement(viewMap: seq<int>, r: nat)
    requires r < |viewMap|
    ensures Cells(viewMap[r := viewMap[r] + 1]) == Cells(viewMap) + 1
  {
    if r > 0 {
      assert viewMap[r := viewMap[r] + 1][1..] == viewMap[1..][r - 1 := viewMap[r] + 1];
      CellsIncrement(viewMap[1..], r - 1);
    }
  }

  /**
   * Splitting keeps the layout well formed, places the new active position in
   * the new layout, and adds exactly one cell for a recognised split type.
   */
  lemma SplitKeepsLayout(positionType: string, viewMap: seq<int>, active: Position)
    requires WellFormedLayout(viewMap, active)
    ensures var r := UpdatedViewMap(positionType, viewMap, active);
            && WellFormedLayout(r.0, r.1)
            && Cells(r.0) == Cells(viewMap) + (if positionType == "horizontal" || positionType == "vertical" then 1 else 0)
  {
    var r := UpdatedViewMap(positionType, viewMap, active);
    var next := active.top + 1;
    if positionType == "horizontal" {
      CellsIncrement(viewMap, active.top);
    } else if positionType == "vertical" {
      if next < |viewMap| {
        assert viewMap == viewMap[..next] + viewMap[next..];
        CellsAppend(viewMap[..next] + [1], viewMap[next..]);
        CellsAppend(viewMap[..next], [1]);
        CellsAppend(viewMap[..next], viewMap[next..]);
        assert r.0[next] == 1;
      } else {
        CellsAppend(viewMap, [1]);
        assert r.0[next] == 1;
      }
    }
  }

  /** `_.max`: the largest entry of a non-empty sequence. */
  function Max(s: seq<int>): (r: int)
    requires s != []
    ensures r in s
    ensures forall x :: x in s ==> x <= r
  {
    if |s| == 1 then s[0]
    else
      var rest := Max(s[1..]);
      assert forall x :: x in s ==> x == s[0] || x in s[1..];
      if s[0] >= rest then s[0] else rest
  }

  class Tab {
    var sessions: seq<Session>
    var sessionsViewMap: seq<int>
    var sessionActivePosition: Position
    var activeSessionIndex: int

    /** Sessions are distinct objects, the index is -1 or a session's, and the layout is well formed. */
    predicate Valid()
      reads this
    {
      && (forall i, j :: 0 <= i < j < |sessions| ==> sessions[i] != sessions[j])
      && -1 <= activeSessionIndex < |sessions|
      && WellFormedLayout(sessionsViewMap, sessionActivePosition)
    }

    /** A tab starts with one session at the origin, active, in a one-cell layout. */
    constructor ()
      ensures Valid()
      ensures |sessions| == 1 && sessions[0].position == Origin && fresh(sessions[0])
      ensures sessionsViewMap == [1] && sessionActivePosition == Origin
      ensures activeSessionIndex == 0
    {
      var session := new Session(Origin);
      sessions := [session];
      sessionsViewMap := [1];
      sessionActivePosition := Origin;
      activeSessionIndex := 0;
    }

    /** `addSession`: a new session at the origin becomes the active one; the layout is not touched. */
    method AddSession() returns (session: Session)
      requires Valid()
      modifies this
      ensures Valid()
      ensures fresh(session) && session.position == Origin
      ensures sessions == old(sessions) + [session]
      ensures activeSessionIndex == |sessions| - 1
      ensures sessionsViewMap == old(sessionsViewMap) && sessionActivePosition == old(sessionActivePosition)
    {
      session := new Session(Origin);
      sessions := sessions + [session];
      activeSessionIndex := |sessions| - 1;
    }

    /** `updateViewMap` applied to the tab's own layout, updating it in place. */
    method UpdateViewMap(positionType: string) returns (newActivePosition: Position)
      requires Valid()
      modifies this
      ensures (sessionsViewMap, newActivePosition) ==
                UpdatedViewMap(positionType, old(sessionsViewMap), old(sessionActivePosition))
      ensures sessions == old(sessions) && activeSessionIndex == old(activeSessionIndex)
      ensures sessionActivePosition == old(sessionActivePosition)
    {
      var top := sessionActivePosition.top;
      newActivePosition := Origin;
      if positionType == "horizontal" {
        sessionsViewMap := sessionsViewMap[top := sessionsViewMap[top] + 1];
        newActivePosition := Position(sessionActivePosition.left + 1, top);
      } else if positionType == "vertical" {
        if top + 1 < |sessionsViewMap| && sessionsViewMap[top + 1] != 0 {
          sessionsViewMap := sessionsViewMap[..top + 1] + [1] + sessionsViewMap[top + 1..];
        } else {
          sessionsViewMap := sessionsViewMap + [1];
        }
        newActivePosition := Position(0, top + 1);
      }
    }

    /** `addSessionToPosition`: split the active cell and open a session in the new cell, which becomes active. */
    method AddSessionToPosition(positionType: string) returns (session: Session)
      requires Valid()
      modifies this
      ensures Valid()
      ensures (sessionsViewMap, sessionActivePosition) ==
                UpdatedViewMap(positionType, old(sessionsViewMap), old(sessionActivePosition))
      ensures fresh(session) && session.position == sessionActivePosition
      ensures sessions == old(sessions) + [session]
      ensures activeSessionIndex == |sessions| - 1
    {
      SplitKeepsLayout(positionType, sessionsViewMap, sessionActivePosition);
      var activePosition := UpdateViewMap(positionType);
      sessionActivePosition := activePosition;
      session := new Session(activePosition);
      sessions := sessions + [session];
      activeSessionIndex := |sessions| - 1;
    }

    /** `closeSession`: every occurrence is removed and an index past the end moves to the last session. */
    method CloseSession(session: Session)
      requires Valid()
      modifies this
      ensures Valid()
      ensures sessions == RemoveAll(old(sessions), session)
      ensures old(activeSessionIndex) >= |sessions| ==> activeSessionIndex == |sessions| - 1
      ensures old(activeSessionIndex) < |sessions| ==> activeSessionIndex == old(activeSessionIndex)
      ensures sessionsViewMap == old(sessionsViewMap) && sessionActivePosition == old(sessionActivePosition)
    {
      RemoveAllDistinct(sessions, session);
      sessions := RemoveAll(sessions, session);
      if activeSessionIndex >= |sessions| {
        activeSessionIndex := |sessions| - 1;
      }
    }

    /** `activeSession`: the session at the active index, if there is one. */
    function ActiveSession(): (r: Option<Session>)
      reads this
      ensures r.Some? <==> 0 <= activeSessionIndex < |sessions|
      ensures r.Some? ==> r.value == sessions[activeSessionIndex]
    {
      if 0 <= activeSessionIndex < |sessions| then Some(sessions[activeSessionIndex]) else None
    }

    /** `activateSession`: the index of the session's first occurrence, or -1. */
    method ActivateSession(session: Session)
      requires Valid()
      modifies this
      ensures Valid()
      ensures activeSessionIndex == IndexOf(sessions, session)
      ensures session in sessions ==> sessions[activeSessionIndex] == session
      ensures session !in sessions ==> activeSessionIndex == -1
      ensures sessions == old(sessions)
      ensures sessionsViewMap == old(sessionsViewMap) && sessionActivePosition == old(sessionActivePosition)
    {
      activeSessionIndex := IndexOf(sessions, session);
    }

    /**
     * `activatePreviousSession`: false, with nothing changed, at index 0;
     * otherwise the previous session becomes active (index -1 stays -1, since
     * there is no session before it).
     */
    method ActivatePreviousSession() returns (moved: bool)
      requires Valid()
      modifies this
      ensures Valid()
      ensures moved <==> old(activeSessionIndex) != 0
      ensures !moved ==> activeSessionIndex == old(activeSessionIndex)
      ensures moved && old(activeSessionIndex) >= 1 ==> activeSessionIndex == old(activeSessionIndex) - 1
      ensures old(activeSessionIndex) == -1 ==> activeSessionIndex == -1
      ensures sessions == old(sessions)
      ensures sessionsViewMap == old(sessionsViewMap) && sessionActivePosition == old(sessionActivePosition)
    {
      var isFirst := activeSessionIndex == 0;
      if !isFirst {
        if 1 <= activeSessionIndex {
          IndexOfDistinct(sessions, activeSessionIndex - 1);
          ActivateSession(sessions[activeSessionIndex - 1]);
        } else {
          // `sessions[-2]` is undefined, which no session equals
          activeSessionIndex := -1;
        }
      }
      moved := !isFirst;
    }

    /**
     * `activateNextSession`: false, with nothing changed, at the last index
     * (or at -1 when there are no sessions); otherwise the next session
     * becomes active.
     */
    method ActivateNextSession() returns (moved: bool)
      requires Valid()
      modifies this
      ensures Valid()
      ensures moved <==> old(activeSessionIndex) != |sessions| - 1
      ensures !moved ==> activeSessionIndex == old(activeSessionIndex)
      ensures moved ==> activeSessionIndex == old(activeSessionIndex) + 1
      ensures sessions == old(sessions)
      ensures sessionsViewMap == old(sessionsViewMap) && sessionActivePosition == old(sessionActivePosition)
    {
      var isLast := activeSessionIndex == |sessions| - 1;
      if !isLast {
        IndexOfDistinct(sessions, activeSessionIndex + 1);
        ActivateSession(sessions[activeSessionIndex + 1]);
      }
      moved := !isLast;
    }

    /** `sessionsCountHorizontal`: the widest row. */
    function SessionsCountHorizontal(): (r: int)
      requires Valid()
      reads this
      ensures r >= 1
      ensures r in sessionsViewMap && forall x :: x in sessionsViewMap ==> x <= r
    {
      Max(sessionsViewMap)
    }

    /** `sessionsCountVertical`: the number of rows. */
    function SessionsCountVertical(): (r: int)
      requires Valid()
      reads this
      ensures r >= 1 && r == |sessionsViewMap|
    {
      |sessionsViewMap|
    }
  }

  /** In a sequence without repetitions, an element's first index is its index. */
  lemma IndexOfDistinct<T>(s: seq<T>, i: nat)
    requires i < |s|
    requires forall a, b :: 0 <= a < b < |s| ==> s[a] != s[b]
    ensures IndexOf(s, s[i]) == i
  {
  }

  /** Removing every occurrence keeps a sequence without repetitions so. */
  lemma RemoveAllDistinct<T>(s: seq<T>, x: T)
    requires forall a, b :: 0 <= a < b < |s| ==> s[a] != s[b]
    ensures forall a, b :: 0 <= a < b < |RemoveAll(s, x)| ==> RemoveAll(s, x)[a] != RemoveAll(s, x)[b]
  {
    var r := RemoveAll(s, x);
    forall a, b | 0 <= a < b < |r| ensures r[a] != r[b] {
      DistinctCount(s, r[a]);
      EqualEntriesCountTwice(r, a, b);
    }
  }

  lemma EqualEntriesCountTwice<T>(s: seq<T>, a: nat, b: nat)
    requires a < b < |s|
    ensures s[a] == s[b] ==> multiset(s)[s[a]] >= 2
  {
    assert s == s[..a] + [s[a]] + s[a + 1..b] + [s[b]] + s[b + 1..];
  }

  lemma {:induction false} DistinctCount<T>(s: seq<T>, x: T)
    requires forall a, b :: 0 <= a < b < |s| ==> s[a] != s[b]
    ensures multiset(s)[x] <= 1
  {
    if s != [] {
      assert s == [s[0]] + s[1..];
      DistinctCount(s[1..], x);
      if s[0] == x {
        assert x !in s[1..] by {
          forall k | 0 <= k < |s[1..]| ensures s[1..][k] != x {
            assert s[1..][k] == s[k + 1];
          }
        }
      }
    }
  }
}
