/** The org-wide registry of shared, mutable passports (office.go). */
module Office {
  import opened Text
  import opened Sets
  import opened Passports
  import opened Agent

  datatype DeviceStatus = Pending | ActiveDevice | RevokedDevice

  datatype DevicePassport = DevicePassport(deviceId: string, deviceCode: string, name: string, status: DeviceStatus)

  datatype Report = Report(
    orgName: string, totalAgents: nat, activeAgents: nat, totalDevices: nat, activeDevices: nat, agents: seq<AuditLine>)

  /** Exactly one line per registered agent. */
  ghost predicate OneLineEach(lines: seq<AuditLine>, ids: set<string>) {
    && |lines| == |ids|
    && (forall i | 0 <= i < |lines| :: lines[i].summary.agentId in ids)
    && (forall i, j | 0 <= i < j < |lines| :: lines[i].summary.agentId != lines[j].summary.agentId)
  }

  /** A clock is any sequence of readings; each call inside a loop takes the next one. */
  type Clock = nat -> int

  /** Go walks a map in any order: a walk lists every key once. */
  predicate Walks(order: seq<string>, keys: set<string>) {
    && |order| == |keys|
    && (forall i | 0 <= i < |order| :: order[i] in keys)
    && (forall i, j | 0 <= i < j < |order| :: order[i] != order[j])
  }

  predicate Distinct(ps: seq<AgentPassport>) {
    forall i, j | 0 <= i < j < |ps| :: ps[i] != ps[j]
  }

  lemma {:induction false} WalkCovers(order: seq<string>, keys: set<string>, k: string)
    requires Walks(order, keys) && k in keys
    ensures k in order
  {
    if k !in order {
      var found := set x | x in order;
      SetOfDistinct(order);
      assert found <= keys - {k};
      Subset(found, keys - {k});
    }
  }

  lemma OneLinePerKey(lines: seq<AuditLine>, order: seq<string>, keys: set<string>)
    requires Walks(order, keys) && |lines| == |order|
    requires forall i | 0 <= i < |order| :: lines[i].summary.agentId == order[i]
    ensures OneLineEach(lines, keys)
  {
  }

  lemma {:induction false} CountIsSize(lines: seq<AuditLine>)
    ensures CountActive(lines) == |set i | 0 <= i < |lines| && lines[i].summary.status == Active|
  {
    if lines != [] {
      var n := |lines| - 1;
      var init := lines[..n];
      CountIsSize(init);
      var before := set i | 0 <= i < n && init[i].summary.status == Active;
      var all := set i | 0 <= i < |lines| && lines[i].summary.status == Active;
      forall i ensures i in all <==> i in before || (i == n && lines[n].summary.status == Active) {
        assert 0 <= i < n ==> lines[i] == init[i];
      }
      if lines[n].summary.status == Active {
        assert all == before + {n};
      } else {
        assert all == before;
      }
    }
  }

  function LineOf(p: Passport): AuditLine {
    AuditLine(Summarize(p), p.log)
  }

  /** One passport's line: a trust check, a summary and a log copy. The check stores an expiry before the
      summary reads the status, so the two agree. */
  method ReportLine(ps: seq<AgentPassport>, n: nat, now: int) returns (line: AuditLine, trusted: bool)
    requires Distinct(ps) && n < |ps|
    modifies ps`status
    ensures ps[n].status == line.summary.status
    ensures forall i | 0 <= i < |ps| && i != n :: ps[i].status == old(ps[i].status)
    ensures line == LineOf(AfterTrust(old(ps[n].Model()), now))
    ensures var p := ps[n];
            line.log == p.auditLog
            && line.summary == PassportSummary(p.agentId, p.agentName, p.ownerOrg, p.model, p.status, p.trustLevel,
                                               p.issuedAt, p.expiresAt, |p.auditLog|, p.fingerprint)
    ensures ps[n].status == if old(ps[n].status) == Active && !old(ps[n].Trusts(now)) then Expired
                            else old(ps[n].status)
    ensures trusted <==> line.summary.status == Active
  {
    trusted := CheckAt(ps, n, now);
    var summary := ps[n].Summary();
    var log := ps[n].AuditLog();
    line := AuditLine(summary, log);
  }

  /** IsTrusted on one member of a walk; the others are different objects and keep their status. */
  method CheckAt(ps: seq<AgentPassport>, n: nat, now: int) returns (trusted: bool)
    requires Distinct(ps) && n < |ps|
    modifies ps`status
    ensures ps[n].status == AfterTrust(old(ps[n].Model()), now).status
    ensures forall i | 0 <= i < |ps| && i != n :: ps[i].status == old(ps[i].status)
    ensures trusted == TrustedAt(old(ps[n].Model()), now)
  {
    trusted := ps[n].IsTrusted(now);
  }

  /** The report's loop over the passports it walks, every trust check at its own clock reading. */
  method ReportLines(ps: seq<AgentPassport>, clock: Clock) returns (lines: seq<AuditLine>, active: nat)
    requires Distinct(ps)
    modifies ps`status
    ensures |lines| == |ps|
    ensures forall i | 0 <= i < |ps| :: ps[i].status == old(AfterTrust(ps[i].Model(), clock(i)).status)
    ensures forall i | 0 <= i < |ps| :: lines[i] == old(LineOf(AfterTrust(ps[i].Model(), clock(i))))
    ensures active == CountActive(lines)
  {
    lines, active := [], 0;
    ghost var expected := seq(|ps|, i requires 0 <= i < |ps| reads ps => AfterTrust(ps[i].Model(), clock(i)));
    for n := 0 to |ps|
      invariant |lines| == n
      invariant forall i | 0 <= i < n :: ps[i].status == expected[i].status
      invariant forall i | n <= i < |ps| :: ps[i].status == old(ps[i].status)
      invariant forall i | 0 <= i < n :: lines[i] == LineOf(expected[i])
      invariant active == CountActive(lines)
    {
      assert AfterTrust(ps[n].Model(), clock(n)) == expected[n];
      var line, trusted := ReportLine(ps, n, clock(n));
      if trusted {
        active := active + 1;
      }
      assert (lines + [line])[..n] == lines;
      lines := lines + [line];
    }
  }

  /** The members whose flag is set, in order. */
  function Pick<T>(xs: seq<T>, flags: seq<bool>): (out: seq<T>)
    requires |xs| == |flags|
  {
    if xs == [] then []
    else Pick(xs[..|xs| - 1], flags[..|xs| - 1]) + if flags[|xs| - 1] then [xs[|xs| - 1]] else []
  }

  lemma {:induction false} PickIff<T>(xs: seq<T>, flags: seq<bool>)
    requires |xs| == |flags| && forall i, j | 0 <= i < j < |xs| :: xs[i] != xs[j]
    ensures forall i | 0 <= i < |xs| :: xs[i] in Pick(xs, flags) <==> flags[i]
    ensures forall x | x in Pick(xs, flags) :: x in xs
    ensures forall i, j | 0 <= i < j < |Pick(xs, flags)| :: Pick(xs, flags)[i] != Pick(xs, flags)[j]
  {
    if xs != [] {
      var n := |xs| - 1;
      PickIff(xs[..n], flags[..n]);
      var init := Pick(xs[..n], flags[..n]);
      assert xs[n] !in init;
      assert forall i | 0 <= i < n :: xs[i] == xs[..n][i] && flags[i] == flags[..n][i];
    }
  }

  /** The loop of ActiveAgents over the passports it walks. */
  method Trusted(ps: seq<AgentPassport>, clock: Clock) returns (out: seq<AgentPassport>, ghost flags: seq<bool>)
    requires Distinct(ps)
    modifies ps`status
    ensures forall i | 0 <= i < |ps| :: ps[i].status == old(AfterTrust(ps[i].Model(), clock(i)).status)
    ensures |flags| == |ps| && forall i | 0 <= i < |ps| :: flags[i] == old(TrustedAt(ps[i].Model(), clock(i)))
    ensures out == Pick(ps, flags)
  {
    out := [];
    ghost var expected := seq(|ps|, i requires 0 <= i < |ps| reads ps => AfterTrust(ps[i].Model(), clock(i)));
    flags := seq(|ps|, i requires 0 <= i < |ps| reads ps => TrustedAt(ps[i].Model(), clock(i)));
    for n := 0 to |ps|
      invariant forall i | 0 <= i < n :: ps[i].status == expected[i].status
      invariant forall i | n <= i < |ps| :: ps[i].status == old(ps[i].status)
      invariant out == Pick(ps[..n], flags[..n])
    {
      assert TrustedAt(ps[n].Model(), clock(n)) == flags[n];
      var trusted := CheckAt(ps, n, clock(n));
      PickNext(ps, flags, n);
      if trusted {
        out := out + [ps[n]];
      }
    }
    assert ps[..|ps|] == ps && flags[..|ps|] == flags;
  }

  lemma PickNext<T>(xs: seq<T>, flags: seq<bool>, n: nat)
    requires n < |xs| == |flags|
    ensures Pick(xs[..n + 1], flags[..n + 1]) == Pick(xs[..n], flags[..n]) + if flags[n] then [xs[n]] else []
  {
    assert xs[..n + 1][..n] == xs[..n] && flags[..n + 1][..n] == flags[..n];
  }

  class PassportOffice {
    const orgName: string
    var agents: map<string, AgentPassport>
    var devices: map<string, DevicePassport>

    ghost predicate Valid()
      reads this
    {
      && (forall k | k in agents :: k != "" && agents[k].agentId == k)
      && (forall k | k in devices :: k != "" && devices[k].deviceId == k)
    }

    constructor (orgName: string)
      ensures Valid() && agents == map[] && devices == map[] && this.orgName == orgName
    {
      this.orgName := orgName;
      agents := map[];
      devices := map[];
    }

    method RegisterDevice(p: DevicePassport)
      requires Valid()
      modifies this`devices
      ensures Valid()
      ensures devices == if p.deviceId == "" then old(devices) else old(devices)[p.deviceId := p]
    {
      if p.deviceId == "" {
        return;
      }
      devices := devices[p.deviceId := p];
    }

    method RegisterAgent(p: AgentPassport?)
      requires Valid()
      modifies this`agents
      ensures Valid()
      ensures agents == if p == null || p.agentId == "" then old(agents) else old(agents)[p.agentId := p]
    {
      if p == null || p.agentId == "" {
        return;
      }
      agents := agents[p.agentId := p];
    }

    method IsTrusted(agentId: string, now: int) returns (b: bool)
      requires Valid()
      modifies agents.Values
      ensures b <==> agentId in agents && old(TrustedAt(agents[agentId].Model(), now))
      ensures b <==> agentId in agents && old(agents[agentId].Trusts(now))
      ensures agentId in agents ==> agents[agentId].Model() == AfterTrust(old(agents[agentId].Model()), now)
      ensures forall k | k in agents && k != agentId :: agents[k].Model() == old(agents[k].Model())
    {
      if agentId !in agents {
        return false;
      }
      b := agents[agentId].IsTrusted(now);
    }

    method RevokeAgent(agentId: string, reason: string, now: int, stamp: Stamp) returns (found: bool)
      requires Valid()
      modifies agents.Values
      ensures found <==> agentId in agents
      ensures found ==> agents[agentId].Model() == RevokeLogged(old(agents[agentId].Model()),
                          if reason == "" then "Revoked by PassportOffice" else reason, now, stamp)
      ensures forall k | k in agents && k != agentId :: agents[k].Model() == old(agents[k].Model())
    {
      if agentId !in agents {
        return false;
      }
      var text := reason;
      if text == "" {
        text := "Revoked by PassportOffice";
      }
      agents[agentId].Revoke(text, now, stamp);
      return true;
    }

    ghost predicate Walk(order: seq<string>)
      reads this
    {
      Walks(order, agents.Keys)
    }

    method Walked(order: seq<string>) returns (ps: seq<AgentPassport>)
      requires Valid() && Walk(order)
      ensures |ps| == |order| && forall i | 0 <= i < |ps| :: order[i] in agents && ps[i] == agents[order[i]]
      ensures Distinct(ps) && forall p :: p in ps <==> p in agents.Values
    {
      var m := agents;
      ps := seq(|order|, i requires 0 <= i < |order| => m[order[i]]);
      forall p | p in agents.Values ensures p in ps {
        WalkCovers(order, agents.Keys, p.agentId);
        var i :| 0 <= i < |order| && order[i] == p.agentId;
        assert ps[i] == p;
      }
      forall i, j | 0 <= i < j < |ps| ensures ps[i] != ps[j] {
        assert ps[i].agentId == order[i] && ps[j].agentId == order[j];
      }
    }

    /** The passports found trusted, each at its own clock reading; only statuses change. */
    method ActiveAgents(order: seq<string>, clock: Clock) returns (out: seq<AgentPassport>)
      requires Valid() && Walk(order)
      modifies agents.Values`status
      ensures Distinct(out)
      ensures forall i | 0 <= i < |order| ::
                order[i] in agents && (agents[order[i]] in out <==> old(agents[order[i]].Trusts(clock(i))))
      ensures forall i | 0 <= i < |order| ::
                agents[order[i]].status == old(AfterTrust(agents[order[i]].Model(), clock(i)).status)
    {
      var ps := Walked(order);
      ghost var flags;
      out, flags := Trusted(ps, clock);
      PickIff(ps, flags);
    }

    /** The compliance snapshot, with no other writer but for any walk and any advance of the clock: one line
        per agent, and the active count is the number of lines whose status is active. */
    method AuditReport(order: seq<string>, clock: Clock) returns (rep: Report)
      requires Valid() && Walk(order)
      modifies agents.Values`status
      ensures OneLineEach(rep.agents, agents.Keys)
      ensures rep.orgName == orgName && rep.totalAgents == |agents| && rep.totalDevices == |devices|
      ensures rep.activeAgents == |set i | 0 <= i < |rep.agents| && rep.agents[i].summary.status == Active|
      ensures rep.activeDevices == |set k | k in devices && devices[k].status == ActiveDevice|
      ensures forall i | 0 <= i < |order| ::
                order[i] in agents && rep.agents[i] == old(LineOf(AfterTrust(agents[order[i]].Model(), clock(i))))
      ensures forall i | 0 <= i < |order| ::
                agents[order[i]].status == old(AfterTrust(agents[order[i]].Model(), clock(i)).status)
    {
      var ps := Walked(order);
      var lines, active := ReportLines(ps, clock);
      forall i | 0 <= i < |order|
        ensures lines[i] == old(LineOf(AfterTrust(agents[order[i]].Model(), clock(i))))
        ensures lines[i].summary.agentId == order[i]
      {
        assert ps[i] == agents[order[i]];
      }
      OneLinePerKey(lines, order, agents.Keys);
      CountIsSize(lines);
      var activeDevices := CountDevices();
      rep := Report(orgName, |agents|, active, |devices|, activeDevices, lines);
    }

    method CountDevices() returns (n: nat)
      ensures n == |set k | k in devices && devices[k].status == ActiveDevice|
    {
      n := 0;
      var rest := devices.Keys;
      ghost var found: set<string> := {};
      while rest != {}
        invariant rest <= devices.Keys
        invariant found == set k | k in devices.Keys - rest && devices[k].status == ActiveDevice
        invariant n == |found|
        decreases |rest|
      {
        var k :| k in rest;
        if devices[k].status == ActiveDevice {
          n := n + 1;
          found := found + {k};
        }
        rest := rest - {k};
      }
      assert found == set k | k in devices && devices[k].status == ActiveDevice;
    }
  }
}
