/** The voice mesh of one client: the table of peer links, one per other socket,
    kept in step with the list the page renders.  The WebRTC peers themselves are
    outside the model; a link records its role and the signals fed to it. */
module VoiceChat {
  import opened JsText
  import opened Wire

  /** An initiator link is opened towards a socket that joined after us; a
      responder link answers a socket that called us. */
  datatype Role = Initiator | Responder

  datatype Link = Link(peerID: SocketId, role: Role, fed: seq<Signal>)

  /** The first link to the socket. */
  function FindPeer(table: seq<Link>, id: SocketId): (r: Option<nat>)
    ensures r.Some? ==> r.value < |table| && table[r.value].peerID == id
    ensures r.Some? ==> forall j :: 0 <= j < r.value ==> table[j].peerID != id
    ensures r.None? <==> forall j :: 0 <= j < |table| ==> table[j].peerID != id
  {
    if table == [] then None
    else if table[0].peerID == id then Some(0)
    else match FindPeer(table[1..], id)
      case None => None
      case Some(k) => Some(k + 1)
  }

  ghost predicate UniquePeers(table: seq<Link>) {
    forall i, j :: 0 <= i < j < |table| ==> table[i].peerID != table[j].peerID
  }

  /** `filter(p => p.peerID !== id)`. */
  function WithoutPeer(table: seq<Link>, id: SocketId): (r: seq<Link>)
    ensures |r| <= |table|
    ensures forall l :: l in r <==> l in table && l.peerID != id
  {
    if table == [] then []
    else if table[0].peerID == id then WithoutPeer(table[1..], id)
    else [table[0]] + WithoutPeer(table[1..], id)
  }

  /** In a table without duplicates, a departure removes exactly the one link to
      the socket and keeps the others in order. */
  lemma WithoutPeerRemovesOne(table: seq<Link>, k: nat)
    requires UniquePeers(table) && k < |table|
    ensures WithoutPeer(table, table[k].peerID) == table[..k] + table[k + 1..]
  {
    WithoutOnlyLink(table, k);
  }

  /** The same, for a link whose socket no other link shares. */
  lemma WithoutOnlyLink(table: seq<Link>, k: nat)
    requires k < |table|
    requires forall j :: 0 <= j < |table| && j != k ==> table[j].peerID != table[k].peerID
    ensures WithoutPeer(table, table[k].peerID) == table[..k] + table[k + 1..]
  {
    var id := table[k].peerID;
    var before, after := table[..k], table[k + 1..];
    forall j | 0 <= j < |before| ensures before[j].peerID != id {
      assert before[j] == table[j];
    }
    forall j | 0 <= j < |after| ensures after[j].peerID != id {
      assert after[j] == table[k + 1 + j];
    }
    WithoutPeerAround(before, table[k], after);
    assert table == before + [table[k]] + after;
  }

  /** Removing the socket of the one link between two parts that have no link
      to it leaves the two parts. */
  lemma WithoutPeerAround(before: seq<Link>, l: Link, after: seq<Link>)
    requires forall j :: 0 <= j < |before| ==> before[j].peerID != l.peerID
    requires forall j :: 0 <= j < |after| ==> after[j].peerID != l.peerID
    ensures WithoutPeer(before + [l] + after, l.peerID) == before + after
  {
    var id := l.peerID;
    calc {
      WithoutPeer(before + [l] + after, id);
      { WithoutPeerAppend(before + [l], after, id); }
      WithoutPeer(before + [l], id) + WithoutPeer(after, id);
      { WithoutPeerAppend(before, [l], id); }
      WithoutPeer(before, id) + WithoutPeer([l], id) + WithoutPeer(after, id);
      { WithoutAbsentPeer(before, id); WithoutAbsentPeer(after, id); assert WithoutPeer([l], id) == []; }
      before + [] + after;
      { assert before + [] == before; }
      before + after;
    }
  }

  /** Removal distributes over concatenation. */
  lemma {:induction false} WithoutPeerAppend(a: seq<Link>, b: seq<Link>, id: SocketId)
    ensures WithoutPeer(a + b, id) == WithoutPeer(a, id) + WithoutPeer(b, id)
    decreases |a|
  {
    if a == [] {
      assert a + b == b;
    } else {
      assert (a + b)[0] == a[0] && (a + b)[1..] == a[1..] + b;
      WithoutPeerAppend(a[1..], b, id);
    }
  }

  /** Removing a socket with no link changes nothing. */
  lemma {:induction false} WithoutAbsentPeer(table: seq<Link>, id: SocketId)
    requires forall j :: 0 <= j < |table| ==> table[j].peerID != id
    ensures WithoutPeer(table, id) == table
    decreases |table|
  {
    if table != [] {
      WithoutAbsentPeer(table[1..], id);
    }
  }

  /** Removing links keeps the table free of duplicates. */
  lemma WithoutPeerKeepsUnique(table: seq<Link>, k: nat)
    requires UniquePeers(table) && k < |table|
    ensures UniquePeers(WithoutPeer(table, table[k].peerID))
  {
    WithoutPeerRemovesOne(table, k);
    var r := table[..k] + table[k + 1..];
    forall i, j | 0 <= i < j < |r| ensures r[i].peerID != r[j].peerID {
      SpliceAt(table, k, i);
      SpliceAt(table, k, j);
    }
  }

  lemma SpliceAt(table: seq<Link>, k: nat, i: nat)
    requires k < |table| && i < |table| - 1
    ensures (table[..k] + table[k + 1..])[i] == if i < k then table[i] else table[i + 1]
  {
  }

  /** Adding a link only when no link to that socket exists keeps the table free
      of duplicates. */
  lemma AddPeerKeepsUnique(table: seq<Link>, l: Link)
    requires UniquePeers(table) && FindPeer(table, l.peerID).None?
    ensures UniquePeers(table + [l])
  {
  }

  function PeerIds(table: seq<Link>): (r: seq<SocketId>)
    ensures |r| == |table| && forall i :: 0 <= i < |table| ==> r[i] == table[i].peerID
  {
    if table == [] then [] else [table[0].peerID] + PeerIds(table[1..])
  }

  class Mesh {
    /** This client's socket id. */
    const selfId: SocketId
    /** `peersRef`: the links the handlers consult. */
    var table: seq<Link>
    /** The `peers` state the page renders. */
    var shown: seq<Link>
    /** The handlers are attached only once the microphone was granted, and
        detached on unmount. */
    var listening: bool
    /** The enabled flag of the stream's first audio track, if there is one. */
    var track: Option<bool>
    var isMuted: bool
    /** Every peer id whose link was destroyed, in order. */
    var destroyed: seq<SocketId>

    ghost predicate Valid()
      reads this
    {
      UniquePeers(table) && (listening ==> shown == table)
    }

    /** Mount: `micGranted` stands for the getUserMedia call succeeding, and
        `audioTrack` for the enabled flag of its first audio track. */
    constructor (selfId: SocketId, micGranted: bool, audioTrack: Option<bool>)
      ensures Valid() && this.selfId == selfId
      ensures table == [] && shown == [] && destroyed == [] && !isMuted
      ensures listening == micGranted
      ensures track == (if micGranted then audioTrack else None)
    {
      this.selfId := selfId;
      table := [];
      shown := [];
      listening := micGranted;
      track := if micGranted then audioTrack else None;
      isMuted := false;
      destroyed := [];
    }

    /** `handleUserJoined`: call a newcomer, unless it is this socket or already linked. */
    method UserJoined(targetId: SocketId)
      requires Valid()
      modifies this`table, this`shown
      ensures Valid()
      ensures !old(listening) || targetId == selfId || FindPeer(old(table), targetId).Some? ==>
        table == old(table) && shown == old(shown)
      ensures old(listening) && targetId != selfId && FindPeer(old(table), targetId).None? ==>
        table == old(table) + [Link(targetId, Initiator, [])] && shown == table
    {
      if !listening || targetId == selfId {
        return;
      }
      if FindPeer(table, targetId).Some? {
        return;
      }
      var l := Link(targetId, Initiator, []);
      AddPeerKeepsUnique(table, l);
      table := table + [l];
      shown := shown + [l];
    }

    /** `handleIncomingCall`: answer a caller not yet linked, feeding it the offer. */
    method IncomingCall(signal: Signal, callerId: SocketId)
      requires Valid()
      modifies this`table, this`shown
      ensures Valid()
      ensures !old(listening) || FindPeer(old(table), callerId).Some? ==>
        table == old(table) && shown == old(shown)
      ensures old(listening) && FindPeer(old(table), callerId).None? ==>
        table == old(table) + [Link(callerId, Responder, [signal])] && shown == table
    {
      if !listening || FindPeer(table, callerId).Some? {
        return;
      }
      var l := Link(callerId, Responder, [signal]);
      AddPeerKeepsUnique(table, l);
      table := table + [l];
      shown := shown + [l];
    }

    /** `handleReturnSignal`: an answer goes to the link of the answering socket;
        answers from unknown sockets are dropped. */
    method ReturnSignal(answer: Signal, answererId: SocketId)
      requires Valid()
      modifies this`table, this`shown
      ensures Valid()
      ensures !old(listening) || FindPeer(old(table), answererId).None? ==>
        table == old(table) && shown == old(shown)
      ensures old(listening) && FindPeer(old(table), answererId).Some? ==>
        var k := FindPeer(old(table), answererId).value;
        table == old(table)[k := old(table)[k].(fed := old(table)[k].fed + [answer])] && shown == table
    {
      if !listening {
        return;
      }
      var found := FindPeer(table, answererId);
      if found.Some? {
        var k := found.value;
        table := table[k := table[k].(fed := table[k].fed + [answer])];
        shown := table;
      }
    }

    /** `handleUserLeft`: destroy and drop the link of the departed socket. */
    method UserLeft(socketId: SocketId)
      requires Valid()
      modifies this`table, this`shown, this`destroyed
      ensures Valid()
      ensures !old(listening) || FindPeer(old(table), socketId).None? ==>
        table == old(table) && shown == old(shown) && destroyed == old(destroyed)
      ensures old(listening) && FindPeer(old(table), socketId).Some? ==>
        var k := FindPeer(old(table), socketId).value;
        && table == old(table)[..k] + old(table)[k + 1..] && shown == table
        && destroyed == old(destroyed) + [socketId]
    {
      if !listening {
        return;
      }
      var found := FindPeer(table, socketId);
      if found.Some? {
        destroyed := destroyed + [socketId];
        WithoutPeerRemovesOne(table, found.value);
        WithoutPeerKeepsUnique(table, found.value);
        table := WithoutPeer(table, socketId);
        shown := WithoutPeer(shown, socketId);
      }
    }

    /** Unmount: detach the handlers, destroy every link in table order and empty
        the table. */
    method Unmount()
      requires Valid()
      modifies this`table, this`destroyed, this`listening
      ensures Valid() && !listening && table == []
      ensures destroyed == old(destroyed) + PeerIds(old(table))
    {
      listening := false;
      var ids := PeerIds(table);
      table := [];
      var i := 0;
      while i < |ids|
        invariant 0 <= i <= |ids|
        invariant table == [] && !listening
        invariant destroyed == old(destroyed) + ids[..i]
      {
        destroyed := destroyed + [ids[i]];
        i := i + 1;
      }
      assert ids[..i] == ids;
    }

    /** `toggleMute`: flip the first audio track and report muted as its negation. */
    method ToggleMute()
      modifies this`track, this`isMuted
      ensures old(track).None? ==> track == old(track) && isMuted == old(isMuted)
      ensures old(track).Some? ==> track == Some(!old(track).value) && isMuted == old(track).value
    {
      if track.Some? {
        track := Some(!track.value);
        isMuted := !track.value;
      }
    }
  }
}
