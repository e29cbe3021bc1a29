/** The transition tables of capidrv.c as they are stored, row by row, and scanning them. */
module CallTables {
  import opened Programs
  import opened CallControl

  datatype PlciRow = PlciRow(act: PlciState, next: PlciState, event: PlciEvent, p0: bool)

  datatype NcciRow = NcciRow(act: NcciState, next: NcciState, event: NcciEvent, n0: bool)

  const PLCI_ROWS := 37

  /** The rows of plcitable. */
  function PlciAt(i: nat): PlciRow
    requires i < PLCI_ROWS
  {
    if i < 18 then PlciAtFront(i) else PlciAtBack(i)
  }

  function PlciAtFront(i: nat): PlciRow
    requires 0 <= i < 18
  {
    match i
    case 0 => PlciRow(PNone, POutgoing, ConnectReq, false)
    case 1 => PlciRow(PNone, PAllocated, FacilityIndUp, false)
    case 2 => PlciRow(PNone, PIncoming, ConnectInd, false)
    case 3 => PlciRow(PNone, PResumeing, ResumeReq, false)
    case 4 => PlciRow(POutgoing, PNone, ConnectConfError, true)
    case 5 => PlciRow(POutgoing, PAllocated, ConnectConfOk, false)
    case 6 => PlciRow(PAllocated, PActive, ConnectActiveInd, false)
    case 7 => PlciRow(PAllocated, PDisconnecting, DisconnectReq, false)
    case 8 => PlciRow(PAllocated, PDisconnecting, FacilityIndDown, false)
    case 9 => PlciRow(PAllocated, PDisconnected, DisconnectInd, false)
    case 10 => PlciRow(PActive, PDisconnecting, DisconnectReq, false)
    case 11 => PlciRow(PActive, PDisconnecting, FacilityIndDown, false)
    case 12 => PlciRow(PActive, PDisconnected, DisconnectInd, false)
    case 13 => PlciRow(PActive, PHeld, HoldInd, false)
    case 14 => PlciRow(PActive, PDisconnecting, SuspendInd, false)
    case 15 => PlciRow(PIncoming, PDisconnecting, ConnectReject, false)
    case 16 => PlciRow(PIncoming, PFacilityInd, FacilityIndUp, false)
    case _ => PlciRow(PIncoming, PAccepting, ConnectResp, false)
  }

  function PlciAtBack(i: nat): PlciRow
    requires 18 <= i < 37
  {
    match i
    case 18 => PlciRow(PIncoming, PDisconnecting, DisconnectReq, false)
    case 19 => PlciRow(PIncoming, PDisconnecting, FacilityIndDown, false)
    case 20 => PlciRow(PIncoming, PDisconnected, DisconnectInd, false)
    case 21 => PlciRow(PIncoming, PDisconnecting, CdInd, false)
    case 22 => PlciRow(PFacilityInd, PDisconnecting, ConnectReject, false)
    case 23 => PlciRow(PFacilityInd, PAccepting, ConnectActiveInd, false)
    case 24 => PlciRow(PFacilityInd, PDisconnecting, DisconnectReq, false)
    case 25 => PlciRow(PFacilityInd, PDisconnecting, FacilityIndDown, false)
    case 26 => PlciRow(PFacilityInd, PDisconnected, DisconnectInd, false)
    case 27 => PlciRow(PAccepting, PActive, ConnectActiveInd, false)
    case 28 => PlciRow(PAccepting, PDisconnecting, DisconnectReq, false)
    case 29 => PlciRow(PAccepting, PDisconnecting, FacilityIndDown, false)
    case 30 => PlciRow(PAccepting, PDisconnected, DisconnectInd, false)
    case 31 => PlciRow(PDisconnecting, PDisconnected, DisconnectInd, false)
    case 32 => PlciRow(PDisconnected, PNone, DisconnectResp, true)
    case 33 => PlciRow(PResumeing, PNone, ResumeConfError, true)
    case 34 => PlciRow(PResumeing, PResume, ResumeConfOk, false)
    case 35 => PlciRow(PResume, PActive, ResumeInd, false)
    case _ => PlciRow(PHeld, PActive, RetrieveInd, false)
  }

  lemma PlciRowsFront(i: nat)
    requires 0 <= i < 18
    ensures var r := PlciAtFront(i); PlciNext(r.act, r.event) == Some((r.next, r.p0))
  {
  }

  lemma PlciRowsBack(i: nat)
    requires 18 <= i < 37
    ensures var r := PlciAtBack(i); PlciNext(r.act, r.event) == Some((r.next, r.p0))
  {
  }

  /** Every row is a transition of the machine. */
  lemma PlciRows(i: nat)
    requires i < PLCI_ROWS
    ensures var r := PlciAt(i); PlciNext(r.act, r.event) == Some((r.next, r.p0))
  {
    if i < 18 { PlciRowsFront(i); } else { PlciRowsBack(i); }
  }

  lemma PlciCompleteFront(s: PlciState, e: PlciEvent) returns (i: nat)
    requires PlciNext(s, e).Some? && (s == PNone || s == POutgoing || s == PAllocated || s == PActive)
    ensures i < PLCI_ROWS && PlciAt(i).act == s && PlciAt(i).event == e
  {
    match (s, e)
    case (PNone, ConnectReq) => i := 0;
    case (PNone, FacilityIndUp) => i := 1;
    case (PNone, ConnectInd) => i := 2;
    case (PNone, ResumeReq) => i := 3;
    case (POutgoing, ConnectConfError) => i := 4;
    case (POutgoing, ConnectConfOk) => i := 5;
    case (PAllocated, ConnectActiveInd) => i := 6;
    case (PAllocated, DisconnectReq) => i := 7;
    case (PAllocated, FacilityIndDown) => i := 8;
    case (PAllocated, DisconnectInd) => i := 9;
    case (PActive, DisconnectReq) => i := 10;
    case (PActive, FacilityIndDown) => i := 11;
    case (PActive, DisconnectInd) => i := 12;
    case (PActive, HoldInd) => i := 13;
    case (PActive, SuspendInd) => i := 14;
    case (_, _) => assert false;
  }

  lemma PlciCompleteBack(s: PlciState, e: PlciEvent) returns (i: nat)
    requires PlciNext(s, e).Some? && !(s == PNone || s == POutgoing || s == PAllocated || s == PActive)
    ensures i < PLCI_ROWS && PlciAt(i).act == s && PlciAt(i).event == e
  {
    match (s, e)
    case (PIncoming, ConnectReject) => i := 15;
    case (PIncoming, FacilityIndUp) => i := 16;
    case (PIncoming, ConnectResp) => i := 17;
    case (PIncoming, DisconnectReq) => i := 18;
    case (PIncoming, FacilityIndDown) => i := 19;
    case (PIncoming, DisconnectInd) => i := 20;
    case (PIncoming, CdInd) => i := 21;
    case (PFacilityInd, ConnectReject) => i := 22;
    case (PFacilityInd, ConnectActiveInd) => i := 23;
    case (PFacilityInd, DisconnectReq) => i := 24;
    case (PFacilityInd, FacilityIndDown) => i := 25;
    case (PFacilityInd, DisconnectInd) => i := 26;
    case (PAccepting, ConnectActiveInd) => i := 27;
    case (PAccepting, DisconnectReq) => i := 28;
    case (PAccepting, FacilityIndDown) => i := 29;
    case (PAccepting, DisconnectInd) => i := 30;
    case (PDisconnecting, DisconnectInd) => i := 31;
    case (PDisconnected, DisconnectResp) => i := 32;
    case (PResumeing, ResumeConfError) => i := 33;
    case (PResumeing, ResumeConfOk) => i := 34;
    case (PResume, ResumeInd) => i := 35;
    case (PHeld, RetrieveInd) => i := 36;
    case (_, _) => assert false;
  }

  /** Every transition has a row. */
  lemma PlciComplete(s: PlciState, e: PlciEvent) returns (i: nat)
    requires PlciNext(s, e).Some?
    ensures i < PLCI_ROWS && PlciAt(i).act == s && PlciAt(i).event == e
  {
    if s == PNone || s == POutgoing || s == PAllocated || s == PActive {
      i := PlciCompleteFront(s, e);
    } else {
      i := PlciCompleteBack(s, e);
    }
  }

  /** The scan of plci_change_state. */
  method ScanPlci(s: PlciState, e: PlciEvent) returns (r: Option<PlciRow>)
    ensures PlciNext(s, e) == if r.None? then None else Some((r.value.next, r.value.p0))
    ensures r.Some? ==> r.value.act == s
  {
    var p := 0;
    while p < PLCI_ROWS
      invariant p <= PLCI_ROWS
      invariant forall k {:trigger PlciAt(k)} :: 0 <= k < p ==> PlciAt(k).act != s || PlciAt(k).event != e
    {
      var row := PlciAt(p);
      if row.act == s && row.event == e {
        PlciRows(p);
        return Some(row);
      }
      p := p + 1;
    }
    if PlciNext(s, e).Some? { var _ := PlciComplete(s, e); }
    return None;
  }

  const NCCI_ROWS := 21

  /** The rows of nccitable. */
  function NcciAt(i: nat): NcciRow
    requires i < NCCI_ROWS
  {
    if i < 10 then NcciAtFront(i) else NcciAtBack(i)
  }

  function NcciAtFront(i: nat): NcciRow
    requires 0 <= i < 10
  {
    match i
    case 0 => NcciRow(NNone, NOutgoing, B3Req, false)
    case 1 => NcciRow(NNone, NIncoming, B3Ind, false)
    case 2 => NcciRow(NOutgoing, NAllocated, B3ConfOk, false)
    case 3 => NcciRow(NOutgoing, NNone, B3ConfError, true)
    case 4 => NcciRow(NIncoming, NDisconnecting, B3Reject, false)
    case 5 => NcciRow(NIncoming, NAllocated, B3Resp, false)
    case 6 => NcciRow(NIncoming, NDisconnected, B3DisconnectInd, false)
    case 7 => NcciRow(NIncoming, NDisconnecting, B3DisconnectReq, false)
    case 8 => NcciRow(NAllocated, NActive, B3ActiveInd, false)
    case _ => NcciRow(NAllocated, NDisconnected, B3DisconnectInd, false)
  }

  function NcciAtBack(i: nat): NcciRow
    requires 10 <= i < 21
  {
    match i
    case 10 => NcciRow(NAllocated, NDisconnecting, B3DisconnectReq, false)
    case 11 => NcciRow(NActive, NActive, ResetInd, false)
    case 12 => NcciRow(NActive, NReseting, ResetReq, false)
    case 13 => NcciRow(NActive, NDisconnected, B3DisconnectInd, false)
    case 14 => NcciRow(NActive, NDisconnecting, B3DisconnectReq, false)
    case 15 => NcciRow(NReseting, NActive, ResetInd, false)
    case 16 => NcciRow(NReseting, NDisconnected, B3DisconnectInd, false)
    case 17 => NcciRow(NReseting, NDisconnecting, B3DisconnectReq, false)
    case 18 => NcciRow(NDisconnecting, NDisconnected, B3DisconnectInd, false)
    case 19 => NcciRow(NDisconnecting, NPrevious, B3DisconnectConfError, false)
    case _ => NcciRow(NDisconnected, NNone, B3DisconnectResp, true)
  }

  lemma NcciRowsFront(i: nat)
    requires 0 <= i < 10
    ensures var r := NcciAtFront(i); NcciNext(r.act, r.event) == Some((r.next, r.n0))
  {
  }

  lemma NcciRowsBack(i: nat)
    requires 10 <= i < 21
    ensures var r := NcciAtBack(i); NcciNext(r.act, r.event) == Some((r.next, r.n0))
  {
  }

  /** Every row is a transition of the machine. */
  lemma NcciRows(i: nat)
    requires i < NCCI_ROWS
    ensures var r := NcciAt(i); NcciNext(r.act, r.event) == Some((r.next, r.n0))
  {
    if i < 10 { NcciRowsFront(i); } else { NcciRowsBack(i); }
  }

  lemma NcciCompleteFront(s: NcciState, e: NcciEvent) returns (i: nat)
    requires NcciNext(s, e).Some? && (s == NNone || s == NOutgoing || s == NIncoming)
    ensures i < NCCI_ROWS && NcciAt(i).act == s && NcciAt(i).event == e
  {
    match (s, e)
    case (NNone, B3Req) => i := 0;
    case (NNone, B3Ind) => i := 1;
    case (NOutgoing, B3ConfOk) => i := 2;
    case (NOutgoing, B3ConfError) => i := 3;
    case (NIncoming, B3Reject) => i := 4;
    case (NIncoming, B3Resp) => i := 5;
    case (NIncoming, B3DisconnectInd) => i := 6;
    case (NIncoming, B3DisconnectReq) => i := 7;
    case (_, _) => assert false;
  }

  lemma NcciCompleteBack(s: NcciState, e: NcciEvent) returns (i: nat)
    requires NcciNext(s, e).Some? && !(s == NNone || s == NOutgoing || s == NIncoming)
    ensures i < NCCI_ROWS && NcciAt(i).act == s && NcciAt(i).event == e
  {
    match (s, e)
    case (NAllocated, B3ActiveInd) => i := 8;
    case (NAllocated, B3DisconnectInd) => i := 9;
    case (NAllocated, B3DisconnectReq) => i := 10;
    case (NActive, ResetInd) => i := 11;
    case (NActive, ResetReq) => i := 12;
    case (NActive, B3DisconnectInd) => i := 13;
    case (NActive, B3DisconnectReq) => i := 14;
    case (NReseting, ResetInd) => i := 15;
    case (NReseting, B3DisconnectInd) => i := 16;
    case (NReseting, B3DisconnectReq) => i := 17;
    case (NDisconnecting, B3DisconnectInd) => i := 18;
    case (NDisconnecting, B3DisconnectConfError) => i := 19;
    case (NDisconnected, B3DisconnectResp) => i := 20;
    case (_, _) => assert false;
  }

  /** Every transition has a row. */
  lemma NcciComplete(s: NcciState, e: NcciEvent) returns (i: nat)
    requires NcciNext(s, e).Some?
    ensures i < NCCI_ROWS && NcciAt(i).act == s && NcciAt(i).event == e
  {
    if s == NNone || s == NOutgoing || s == NIncoming {
      i := NcciCompleteFront(s, e);
    } else {
      i := NcciCompleteBack(s, e);
    }
  }

  /** The scan of ncci_change_state. */
  method ScanNcci(s: NcciState, e: NcciEvent) returns (r: Option<NcciRow>)
    ensures NcciNext(s, e) == if r.None? then None else Some((r.value.next, r.value.n0))
    ensures r.Some? ==> r.value.act == s
  {
    var p := 0;
    while p < NCCI_ROWS
      invariant p <= NCCI_ROWS
      invariant forall k {:trigger NcciAt(k)} :: 0 <= k < p ==> NcciAt(k).act != s || NcciAt(k).event != e
    {
      var row := NcciAt(p);
      if row.act == s && row.event == e {
        NcciRows(p);
        return Some(row);
      }
      p := p + 1;
    }
    if NcciNext(s, e).Some? { var _ := NcciComplete(s, e); }
    return None;
  }
}
