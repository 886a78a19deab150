/**
 * The shared state of the monitor as a sequential state machine: the last
 * successfully polled record (none before the first poll) and the set of
 * connected push clients, with the transitions of the poll loop, the
 * WebSocket handler and the once-a-second broadcaster.
 */
module Server {
  import opened Options
  import opened Status

  /**
   * The outcome of one page request: aborted by a panic, or the template's
   * data, the snapshot with the listening port and the WebSocket URL added.
   */
  datatype Page = Aborted | Rendered(status: Report, httpPort: string, wsURL: string)

  /** A push client, identified by its connection. */
  type ClientId = nat

  /** The broadcaster sends only while a record is cached and it says playback is on. */
  predicate Broadcasts(state: Option<PlaybackRecord>) {
    state.Some? && state.value.playing
  }

  class Monitor {
    var current: Option<PlaybackRecord>
    var clients: set<ClientId>

    /** Before the first poll: no record and no clients. */
    constructor ()
      ensures current == None && clients == {}
    {
      current := None;
      clients := {};
    }

    /**
     * A successful poll replaces the whole record with the new one, stamped
     * with the current time; the clients are untouched.
     */
    method PollSuccess(rec: PlaybackRecord, nowMs: nat)
      modifies this`current
      ensures current == Some(rec.(timestampMs := nowMs))
      ensures clients == old(clients)
    {
      current := Some(rec.(timestampMs := nowMs));
    }

    /** A failed poll leaves the cached record (stale or absent) as it was. */
    method PollFailure()
      ensures current == old(current) && clients == old(clients)
    {
    }

    /** A new WebSocket connection is registered. */
    method Connect(id: ClientId)
      modifies this`clients
      ensures clients == old(clients) + {id}
      ensures current == old(current)
    {
      clients := clients + {id};
    }

    /** A read error on a connection removes it; removing an absent client changes nothing. */
    method Disconnect(id: ClientId)
      modifies this`clients
      ensures clients == old(clients) - {id}
      ensures current == old(current)
    {
      clients := clients - {id};
    }

    /**
     * The delivery loop of sendCurrentStatus: every registered client is
     * written to once; those whose write fails are closed and removed, all
     * others stay and have received the message.
     */
    method Broadcast(failed: set<ClientId>) returns (delivered: set<ClientId>)
      modifies this`clients
      ensures clients == old(clients) - failed
      ensures delivered == old(clients) - failed
      ensures current == old(current)
    {
      var pending := clients;
      delivered := {};
      while pending != {}
        invariant pending <= old(clients)
        invariant clients == old(clients) - (failed * (old(clients) - pending))
        invariant delivered == (old(clients) - pending) - failed
        decreases pending
      {
        var client :| client in pending;
        if client in failed {
          clients := clients - {client};
        } else {
          delivered := delivered + {client};
        }
        pending := pending - {client};
      }
    }

    /**
     * One tick of the broadcaster: when a playing record is cached, build its
     * snapshot; if it serializes, post it to the webhook when one is configured
     * and deliver it to the clients, pruning those whose write fails. The
     * record itself is never changed.
     */
    method Tick(env: Environment, files: set<string>, webhookConfigured: bool, failed: set<ClientId>)
      returns (sent: Option<Report>, posted: bool, delivered: set<ClientId>, filesAfter: set<string>)
      requires Broadcasts(current) ==> HasArtist(current.value) && current.value.timestampMs <= env.nowMs
      modifies this`clients
      ensures current == old(current)
      ensures sent.Some? <==> Broadcasts(current) && current.value.item.durationMs != 0
      ensures sent.Some? ==> sent.value == StatusOf(current.value, env, files).0
      ensures clients == (if sent.Some? then old(clients) - failed else old(clients))
      ensures delivered == (if sent.Some? then old(clients) - failed else {})
      ensures posted <==> sent.Some? && webhookConfigured
      ensures filesAfter == (if Broadcasts(current) then StatusOf(current.value, env, files).1 else files)
    {
      sent, posted, delivered, filesAfter := None, false, {}, files;
      if Broadcasts(current) {
        var report;
        report, filesAfter := GetCurrentStatus(current, env, files);
        if Serializable(report.value) {
          posted := webhookConfigured;
          delivered := Broadcast(failed);
          sent := report;
        }
      }
    }

    /**
     * The page handler: before the first successful poll the snapshot is a nil
     * map, writing "httpPort" into it panics and the request gets no page;
     * otherwise the page is rendered from the snapshot of the cached record
     * with the port and the WebSocket URL added. Rendering may fill the artwork
     * cache; nothing in the monitor changes.
     */
    method Render(env: Environment, files: set<string>, httpPort: string, wsURL: string)
      returns (page: Page, filesAfter: set<string>)
      requires current.Some? ==> HasArtist(current.value) && current.value.timestampMs <= env.nowMs
      ensures current.None? ==> page == Aborted && filesAfter == files
      ensures current.Some? ==> page == Rendered(StatusOf(current.value, env, files).0, httpPort, wsURL)
      ensures current.Some? ==> filesAfter == StatusOf(current.value, env, files).1
    {
      var report;
      report, filesAfter := GetCurrentStatus(current, env, files);
      if report.None? {
        page := Aborted;
      } else {
        page := Rendered(report.value, httpPort, wsURL);
      }
    }
  }
}
