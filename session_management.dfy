/** The administrator's chat-session list: the phase and status filters, the
    phase names, the active count and the termination of a session. */
module SessionManagement {
  import opened JsValue
  import opened Lists

  /** A chat session row; its status is one of 'active', 'completed' and
      'abandoned'. */
  datatype Session = Session(
    id: int,
    userId: int,
    userEmail: string,
    phase: int,
    stage: int,
    status: string,
    messageCount: int,
    startedAt: string,
    lastActivityAt: string,
    destination: Option<string>,
    travelDates: Option<string>)

  const All := "all"
  const Active := "active"
  const Abandoned := "abandoned"

  const PhaseOneName := "여행지 확정"
  const PhaseTwoName := "정보 수집"
  const PhaseThreeName := "일정 생성"

  /** `getPhaseText`: the three phases by name, any other number as
      'Phase n'. */
  function PhaseText(phase: int): (text: string)
    ensures phase == 1 ==> text == PhaseOneName
    ensures phase == 2 ==> text == PhaseTwoName
    ensures phase == 3 ==> text == PhaseThreeName
    ensures phase !in {1, 2, 3} ==> text == "Phase " + IntToDecimal(phase)
  {
    if phase == 1 then PhaseOneName
    else if phase == 2 then PhaseTwoName
    else if phase == 3 then PhaseThreeName
    else "Phase " + IntToDecimal(phase)
  }

  /** Different phases never share a text. */
  lemma PhaseTextInjective(a: int, b: int)
    requires PhaseText(a) == PhaseText(b)
    ensures a == b
  {
    if a !in {1, 2, 3} && b !in {1, 2, 3} {
      var ta, tb := IntToDecimal(a), IntToDecimal(b);
      assert ("Phase " + ta)[6..] == ta;
      assert ("Phase " + tb)[6..] == tb;
      ParseIntOfDecimal(a);
      ParseIntOfDecimal(b);
    }
  }

  /** The phase select: 'all', or the phase written as a number. */
  predicate MatchesPhase(session: Session, filterPhase: string) {
    filterPhase == All || IntToDecimal(session.phase) == filterPhase
  }

  predicate MatchesStatus(session: Session, filterStatus: string) {
    filterStatus == All || session.status == filterStatus
  }

  /** Choosing phase n in the select keeps exactly the sessions in phase n. */
  lemma PhaseFilterSelects(session: Session, n: int)
    ensures MatchesPhase(session, IntToDecimal(n)) <==> session.phase == n
  {
    var text := IntToDecimal(n);
    assert text[0] == '-' || IsDigit(text[0]);
    if IntToDecimal(session.phase) == text {
      ParseIntOfDecimal(session.phase);
      ParseIntOfDecimal(n);
    }
  }

  /** `filteredSessions` */
  function FilteredSessions(sessions: seq<Session>, filterPhase: string, filterStatus: string): seq<Session> {
    Filter(sessions, s => MatchesPhase(s, filterPhase) && MatchesStatus(s, filterStatus))
  }

  /** The list shown keeps the sessions' order and holds exactly those
      passing both selects; with both on 'all' it is every session. */
  lemma FilteredSessionsSelect(sessions: seq<Session>, filterPhase: string, filterStatus: string, s: Session)
    ensures IsSubsequence(FilteredSessions(sessions, filterPhase, filterStatus), sessions)
    ensures s in FilteredSessions(sessions, filterPhase, filterStatus) <==>
      s in sessions && MatchesPhase(s, filterPhase) && MatchesStatus(s, filterStatus)
    ensures filterPhase == All && filterStatus == All ==> FilteredSessions(sessions, filterPhase, filterStatus) == sessions
  {
    var keep := t => MatchesPhase(t, filterPhase) && MatchesStatus(t, filterStatus);
    FilterIsSubsequence(sessions, keep);
    FilterMembers(sessions, keep, s);
    if filterPhase == All && filterStatus == All {
      FilterKeepsAll(sessions, keep);
    }
  }

  predicate IsActive(session: Session) {
    session.status == Active
  }

  /** The terminate button is offered for active sessions only. */
  predicate CanTerminate(session: Session) {
    IsActive(session)
  }

  /** The summary's active count. */
  function ActiveCount(sessions: seq<Session>): nat {
    |Filter(sessions, IsActive)|
  }

  /** The active sessions carrying an id. */
  function ActiveWithId(sessions: seq<Session>, id: int): seq<Session> {
    Filter(sessions, (s: Session) => s.id == id && IsActive(s))
  }

  /** The mapped list `handleTerminateSession` installs: every session with
      that id becomes abandoned, every other one is kept as it was. */
  function Terminated(sessions: seq<Session>, id: int): (r: seq<Session>)
    ensures |r| == |sessions|
    ensures forall i :: 0 <= i < |sessions| && sessions[i].id == id ==> r[i] == sessions[i].(status := Abandoned)
    ensures forall i :: 0 <= i < |sessions| && sessions[i].id != id ==> r[i] == sessions[i]
  {
    if |sessions| == 0 then []
    else [if sessions[0].id == id then sessions[0].(status := Abandoned) else sessions[0]] + Terminated(sessions[1..], id)
  }

  /** After termination no session with that id is active or offered for
      termination, and the active count drops by the number of active
      sessions that had it. */
  lemma {:induction false} TerminateCounts(sessions: seq<Session>, id: int)
    ensures forall i :: 0 <= i < |sessions| && sessions[i].id == id ==> !CanTerminate(Terminated(sessions, id)[i])
    ensures ActiveCount(Terminated(sessions, id)) == ActiveCount(sessions) - |ActiveWithId(sessions, id)|
    decreases |sessions|
  {
    if |sessions| > 0 {
      var r := Terminated(sessions, id);
      assert r[1..] == Terminated(sessions[1..], id);
      TerminateCounts(sessions[1..], id);
    }
  }

  /** Terminating a session that is not active leaves the active count as
      it was; terminating an active one lowers it. */
  lemma TerminateActiveCount(sessions: seq<Session>, id: int)
    ensures ActiveCount(Terminated(sessions, id)) <= ActiveCount(sessions)
    ensures (exists i :: 0 <= i < |sessions| && sessions[i].id == id && IsActive(sessions[i])) ==>
      ActiveCount(Terminated(sessions, id)) < ActiveCount(sessions)
    ensures (forall i :: 0 <= i < |sessions| && sessions[i].id == id ==> !IsActive(sessions[i])) ==>
      ActiveCount(Terminated(sessions, id)) == ActiveCount(sessions)
  {
    TerminateCounts(sessions, id);
    if exists i :: 0 <= i < |sessions| && sessions[i].id == id && IsActive(sessions[i]) {
      var i :| 0 <= i < |sessions| && sessions[i].id == id && IsActive(sessions[i]);
      FilterMembers(sessions, (s: Session) => s.id == id && IsActive(s), sessions[i]);
    }
    if forall i :: 0 <= i < |sessions| && sessions[i].id == id ==> !IsActive(sessions[i]) {
      FilterDropsAll(sessions, (s: Session) => s.id == id && IsActive(s));
    }
  }

  /** The badge text for a status. */
  function StatusText(status: string): (text: string)
    ensures status == Active <==> text == "활성"
    ensures status == "completed" <==> text == "완료"
  {
    if status == Active then "활성"
    else if status == "completed" then "완료"
    else "포기됨"
  }

  class SessionAdmin {
    var sessions: seq<Session>
    var filterPhase: string
    var filterStatus: string
    var selectedSession: Option<Session>

    constructor()
      ensures sessions == [] && filterPhase == All && filterStatus == All && selectedSession == None
    {
      sessions := [];
      filterPhase := All;
      filterStatus := All;
      selectedSession := None;
    }

    /** `fetchSessions`: the list the source supplies (a fixed sample). */
    method FetchSessions(fetched: seq<Session>)
      modifies this
      ensures sessions == fetched
      ensures filterPhase == old(filterPhase) && filterStatus == old(filterStatus) && selectedSession == old(selectedSession)
    {
      sessions := fetched;
    }

    method SetFilterPhase(phase: string)
      modifies this
      ensures filterPhase == phase
      ensures sessions == old(sessions) && filterStatus == old(filterStatus) && selectedSession == old(selectedSession)
    {
      filterPhase := phase;
    }

    method SetFilterStatus(status: string)
      modifies this
      ensures filterStatus == status
      ensures sessions == old(sessions) && filterPhase == old(filterPhase) && selectedSession == old(selectedSession)
    {
      filterStatus := status;
    }

    /** `handleTerminateSession`: only when the user confirms. The session
        open in the detail dialog is a copy and keeps its old status. */
    method HandleTerminateSession(id: int, confirmed: bool)
      modifies this
      ensures confirmed ==> sessions == Terminated(old(sessions), id)
      ensures !confirmed ==> sessions == old(sessions)
      ensures filterPhase == old(filterPhase) && filterStatus == old(filterStatus) && selectedSession == old(selectedSession)
    {
      if confirmed {
        sessions := Terminated(sessions, id);
      }
    }

    /** `handleViewDetails` */
    method ViewDetails(session: Session)
      modifies this
      ensures selectedSession == Some(session)
      ensures sessions == old(sessions) && filterPhase == old(filterPhase) && filterStatus == old(filterStatus)
    {
      selectedSession := Some(session);
    }

    /** A click outside the dialog closes it. */
    method CloseDetails()
      modifies this
      ensures selectedSession == None
      ensures sessions == old(sessions) && filterPhase == old(filterPhase) && filterStatus == old(filterStatus)
    {
      selectedSession := None;
    }

    function Shown(): seq<Session>
      reads this
    {
      FilteredSessions(sessions, filterPhase, filterStatus)
    }
  }
}
