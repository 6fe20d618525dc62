/**
 * The piece-tracking branches of the client's alert loop: one tracker per torrent, made at its first
 * finished block and given up, with its results gossiped, when the torrent is finished.
 */
module ClientAlerts {
  import opened Common
  import opened Reputation

  datatype ClientAlert =
    | Piece(torrent: string, alert: Alert)
    | TorrentFinished(torrent: string)

  type Ledgers = map<string, Ledger>

  /** What one alert does to the trackers. */
  function Handled(ls: Ledgers, a: ClientAlert): Ledgers {
    match a
    case Piece(t, alert) =>
      if t in ls then ls[t := Applied(ls[t], alert)]
      else if alert.BlockFinished? then ls[t := Applied(EMPTY_LEDGER, alert)]
      else ls
    case TorrentFinished(t) => ls - {t}
  }

  function HandledAll(h: seq<ClientAlert>): Ledgers {
    if h == [] then map[] else Handled(HandledAll(h[..|h| - 1]), h[|h| - 1])
  }

  /** The alerts of a torrent since it was last finished, from the first finished block on. */
  function Current(h: seq<ClientAlert>, torrent: string): Option<seq<Alert>> {
    if h == [] then None
    else
      var before := Current(h[..|h| - 1], torrent);
      match h[|h| - 1]
      case Piece(t, alert) =>
        if t != torrent then before
        else if before.Some? then Some(before.value + [alert])
        else if alert.BlockFinished? then Some([alert])
        else None
      case TorrentFinished(t) => if t == torrent then None else before
  }

  lemma AppliedAllSnoc(h: seq<Alert>, a: Alert)
    ensures AfterHistory(h + [a]) == Applied(AfterHistory(h), a)
  {
    assert (h + [a])[..|h|] == h;
  }

  /** Each torrent's tracker depends on that torrent's current alerts alone, and is their fold. */
  lemma {:induction false} TrackersFromHistory(h: seq<ClientAlert>, torrent: string)
    ensures torrent in HandledAll(h) <==> Current(h, torrent).Some?
    ensures torrent in HandledAll(h) ==> HandledAll(h)[torrent] == AfterHistory(Current(h, torrent).value)
  {
    if h != [] {
      TrackersFromHistory(h[..|h| - 1], torrent);
      var before := Current(h[..|h| - 1], torrent);
      match h[|h| - 1]
      case Piece(t, alert) =>
        if t == torrent {
          AppliedAllSnoc(if before.Some? then before.value else [], alert);
          assert [] + [alert] == [alert];
        }
      case TorrentFinished(_) =>
    }
  }

  /** What is handed to the gossip layer when a torrent is finished. */
  datatype Report = Report(torrent: string, updates: seq<Update>)

  /** The alert ends the tracking of a torrent that was tracked after this history. */
  predicate Reports(h: seq<ClientAlert>, a: ClientAlert) {
    a.TorrentFinished? && Current(h, a.torrent).Some?
  }

  /**
   * The report lists each peer that took part in a judged piece of the torrent since it was last
   * finished, once, with its good verdicts minus five times its bad ones; and no other peer.
   */
  ghost predicate IsReport(h: seq<ClientAlert>, torrent: string, r: Report) {
    && r.torrent == torrent && Current(h, torrent).Some?
    && NoDuplicates(r.updates)
    && forall peer: Endpoint, d: int ::
         var now := Current(h, torrent).value;
         var good, bad := Verdicts(now, |now|, peer, true), Verdicts(now, |now|, peer, false);
         Update(peer, d) in r.updates <==> good + bad > 0 && d == good - 5 * bad
  }

  /** A poll sends one report for each tracked torrent that finishes, in order, and no other. */
  ghost predicate Sent(seen: seq<ClientAlert>, alerts: seq<ClientAlert>, sent: seq<Report>)
    decreases alerts
  {
    if alerts == [] then sent == []
    else
      var init, a := alerts[..|alerts| - 1], alerts[|alerts| - 1];
      if Reports(seen + init, a)
      then sent != [] && IsReport(seen + init, a.torrent, sent[|sent| - 1]) && Sent(seen, init, sent[..|sent| - 1])
      else Sent(seen, init, sent)
  }

  /** The updates of a finished torrent's tracker are the report its history calls for. */
  lemma FinishedReport(h: seq<ClientAlert>, torrent: string, updates: seq<Update>)
    requires torrent in HandledAll(h) && ListsAll(updates, HandledAll(h)[torrent].delta)
    ensures IsReport(h, torrent, Report(torrent, updates))
  {
    TrackersFromHistory(h, torrent);
    var now := Current(h, torrent).value;
    forall peer: Endpoint, d: int
      ensures var good, bad := Verdicts(now, |now|, peer, true), Verdicts(now, |now|, peer, false);
              Update(peer, d) in updates <==> good + bad > 0 && d == good - 5 * bad
    {
      DeltaFromHistory(now, peer);
    }
  }

  lemma HandledAllSnoc(seen: seq<ClientAlert>, alerts: seq<ClientAlert>, a: ClientAlert)
    ensures HandledAll(seen + (alerts + [a])) == Handled(HandledAll(seen + alerts), a)
  {
    var h := seen + alerts;
    assert seen + (alerts + [a]) == h + [a];
    assert (h + [a])[..|h|] == h;
  }

  lemma SentSnoc(seen: seq<ClientAlert>, alerts: seq<ClientAlert>, a: ClientAlert, sent: seq<Report>, updates: Option<seq<Update>>)
    requires Sent(seen, alerts, sent)
    requires var ls := HandledAll(seen + alerts);
             && (updates.Some? <==> a.TorrentFinished? && a.torrent in ls)
             && (updates.Some? ==> ListsAll(updates.value, ls[a.torrent].delta))
    ensures Sent(seen, alerts + [a], if updates.Some? then sent + [Report(a.torrent, updates.value)] else sent)
  {
    assert (alerts + [a])[..|alerts|] == alerts;
    if a.TorrentFinished? {
      TrackersFromHistory(seen + alerts, a.torrent);
    }
    if updates.Some? {
      FinishedReport(seen + alerts, a.torrent, updates.value);
      assert (sent + [Report(a.torrent, updates.value)])[..|sent|] == sent;
    }
  }

  class Client {
    var trackers: map<string, PieceTracker>

    /** Each torrent has a tracker of its own. */
    ghost predicate Valid()
      reads this
    {
      forall s, t :: s in trackers && t in trackers && trackers[s] == trackers[t] ==> s == t
    }

    ghost function Contents(): Ledgers
      reads this, trackers.Values
    {
      map t | t in trackers :: trackers[t].Contents()
    }

    constructor ()
      ensures Valid() && Contents() == map[]
    {
      trackers := map[];
    }

    method OnBlock(torrent: string, piece: int, block: int, peer: Endpoint)
      requires Valid()
      modifies this, trackers.Values
      ensures Valid() && Contents() == Handled(old(Contents()), Piece(torrent, BlockFinished(piece, block, peer)))
      ensures fresh(trackers.Values - old(trackers.Values))
    {
      TrackerFor(torrent);
      AddBlockTo(torrent, piece, block, peer);
    }

    method AddBlockTo(torrent: string, piece: int, block: int, peer: Endpoint)
      requires Valid() && torrent in trackers
      modifies trackers.Values
      ensures Valid() && torrent in old(Contents())
      ensures Contents() == old(Contents())[torrent := Applied(old(Contents())[torrent], BlockFinished(piece, block, peer))]
    {
      trackers[torrent].AddBlock(piece, block, peer);
    }

    /** Makes the torrent's tracker on first use. */
    method TrackerFor(torrent: string)
      requires Valid()
      modifies this
      ensures Valid() && torrent in trackers && fresh(trackers.Values - old(trackers.Values))
      ensures Contents() == if torrent in old(Contents()) then old(Contents()) else old(Contents())[torrent := EMPTY_LEDGER]
    {
      if torrent !in trackers {
        var tracker := new PieceTracker();
        trackers := trackers[torrent := tracker];
      }
    }

    method OnHashFailed(torrent: string, piece: int)
      requires Valid()
      modifies this, trackers.Values
      ensures Valid() && Contents() == Handled(old(Contents()), Piece(torrent, HashFailed(piece)))
      ensures fresh(trackers.Values - old(trackers.Values))
    {
      if torrent in trackers {
        var tracker := trackers[torrent];
        tracker.RecordBadPiece(piece);
        var _ := tracker.GetPieceContributors(piece);
      }
    }

    method OnPieceFinished(torrent: string, piece: int)
      requires Valid()
      modifies this, trackers.Values
      ensures Valid() && Contents() == Handled(old(Contents()), Piece(torrent, PieceFinished(piece)))
      ensures fresh(trackers.Values - old(trackers.Values))
    {
      if torrent in trackers {
        trackers[torrent].RecordGoodPiece(piece);
      }
    }

    /** `sent` is what is handed to the gossip layer, for a torrent that was being tracked. */
    method OnTorrentFinished(torrent: string) returns (sent: Option<seq<Update>>)
      requires Valid()
      modifies this
      ensures Valid() && Contents() == Handled(old(Contents()), TorrentFinished(torrent))
      ensures trackers.Values <= old(trackers.Values)
      ensures sent.Some? <==> torrent in old(Contents())
      ensures sent.Some? ==> ListsAll(sent.value, old(Contents())[torrent].delta)
    {
      sent := None;
      if torrent in trackers {
        var updates := trackers[torrent].GetReputationUpdates();
        sent := Some(updates);
        trackers := trackers - {torrent};
      }
    }

    method HandleAlert(a: ClientAlert) returns (sent: Option<seq<Update>>)
      requires Valid()
      modifies this, trackers.Values
      ensures Valid() && Contents() == Handled(old(Contents()), a)
      ensures fresh(trackers.Values - old(trackers.Values))
      ensures sent.Some? <==> a.TorrentFinished? && a.torrent in old(Contents())
      ensures sent.Some? ==> ListsAll(sent.value, old(Contents())[a.torrent].delta)
    {
      sent := None;
      match a
      case Piece(t, BlockFinished(piece, block, peer)) => OnBlock(t, piece, block, peer);
      case Piece(t, HashFailed(piece)) => OnHashFailed(t, piece);
      case Piece(t, PieceFinished(piece)) => OnPieceFinished(t, piece);
      case TorrentFinished(t) => sent := OnTorrentFinished(t);
    }

    /** One alert of a poll; a report it calls for is handed on. */
    method HandleNext(a: ClientAlert, ghost seen: seq<ClientAlert>, ghost alerts: seq<ClientAlert>, sent: seq<Report>)
      returns (sent': seq<Report>)
      requires Valid() && Contents() == HandledAll(seen + alerts) && Sent(seen, alerts, sent)
      modifies this, trackers.Values
      ensures Valid() && Contents() == HandledAll(seen + (alerts + [a])) && Sent(seen, alerts + [a], sent')
      ensures fresh(trackers.Values - old(trackers.Values))
    {
      HandledAllSnoc(seen, alerts, a);
      var updates := HandleAlert(a);
      SentSnoc(seen, alerts, a, sent, updates);
      sent' := if updates.Some? then sent + [Report(a.torrent, updates.value)] else sent;
    }

    /**
     * One poll. `seen` is the history of the alerts handled by earlier polls: trackers live on from
     * one poll to the next. `sent` is what is handed to the gossip layer, in order.
     */
    method HandleAlerts(alerts: seq<ClientAlert>, ghost seen: seq<ClientAlert>) returns (sent: seq<Report>)
      requires Valid() && Contents() == HandledAll(seen)
      modifies this, trackers.Values
      ensures Valid() && Contents() == HandledAll(seen + alerts)
      ensures Sent(seen, alerts, sent)
    {
      sent := [];
      assert seen + alerts[..0] == seen;
      for i := 0 to |alerts|
        invariant Valid() && Contents() == HandledAll(seen + alerts[..i])
        invariant fresh(trackers.Values - old(trackers.Values))
        invariant Sent(seen, alerts[..i], sent)
      {
        sent := HandleNext(alerts[i], seen, alerts[..i], sent);
        assert alerts[..i + 1] == alerts[..i] + [alerts[i]];
      }
      assert alerts[..|alerts|] == alerts;
    }
  }
}
