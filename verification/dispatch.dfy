/**
 * The service dispatcher (process_services in service_enum.py): walks the
 * requested names in order, runs the enumerator of every recognised name and
 * stores its result under that name, skipping names it does not know.
 */
module Dispatch {
  import opened Wrappers
  import opened Enumeration

  /** The name under which a service is requested and stored. */
  function Name(s: Service): string
  {
    match s
    case Smb => "smb"
    case Ldap => "ldap"
    case Ftp => "ftp"
  }

  /** The fixed three-entry table, looked up by exact string match. */
  function Lookup(name: string): (r: Option<Service>)
    ensures r.Some? <==> name in {"smb", "ldap", "ftp"}
    ensures r.Some? ==> Name(r.value) == name
  {
    if name == "smb" then Some(Smb)
    else if name == "ldap" then Some(Ldap)
    else if name == "ftp" then Some(Ftp)
    else None
  }

  /** Every service is found under its own name. */
  lemma LookupName(s: Service)
    ensures Lookup(Name(s)) == Some(s)
  {
  }

  /** The state of a dispatch: the results so far and every command issued so far, in order. */
  datatype Progress = Progress(results: map<string, EnumResult>, issued: seq<string>)

  /** One iteration of the loop: the requested name `name` is processed. */
  function Step(p: Progress, ip: string, name: string, respond: Responder): (q: Progress)
    ensures Lookup(name).None? ==> q == p
    ensures Lookup(name).Some? ==>
      && name in q.results
      && q.results[name] == Enumerate(Lookup(name).value, ip, respond, |p.issued|)
      && q.issued == p.issued + Commands(Lookup(name).value, ip)
    ensures forall k :: k != name ==> (k in q.results <==> k in p.results)
    ensures forall k :: k != name && k in p.results ==> q.results[k] == p.results[k]
    ensures |p.issued| <= |q.issued| && q.issued[..|p.issued|] == p.issued
  {
    match Lookup(name)
    case None => p
    case Some(s) =>
      Progress(p.results[name := Enumerate(s, ip, respond, |p.issued|)], p.issued + Commands(s, ip))
  }

  /** The whole dispatch over `services`, as a function of its inputs. */
  function DispatchAll(ip: string, services: seq<string>, respond: Responder): (r: Progress)
    ensures forall k :: k in r.results ==> k in services && Lookup(k).Some?
    decreases |services|
  {
    if services == [] then Progress(map[], [])
    else Step(DispatchAll(ip, services[..|services| - 1], respond), ip, services[|services| - 1], respond)
  }

  /** The distinct recognised names among the requests. */
  function KnownNames(services: seq<string>): set<string>
  {
    set s | s in services && Lookup(s).Some?
  }

  /** The requests with every unrecognised name removed, order and duplicates kept. */
  function Recognised(services: seq<string>): (r: seq<string>)
    ensures forall i :: 0 <= i < |r| ==> Lookup(r[i]).Some?
    ensures |r| <= |services|
    decreases |services|
  {
    if services == [] then []
    else
      var rest := Recognised(services[..|services| - 1]);
      var last := services[|services| - 1];
      if Lookup(last).Some? then rest + [last] else rest
  }

  /** Filtering keeps the order of the requests: it distributes over concatenation. */
  lemma {:induction false} RecognisedAppend(a: seq<string>, b: seq<string>)
    ensures Recognised(a + b) == Recognised(a) + Recognised(b)
    decreases |b|
  {
    if b != [] {
      var init := b[..|b| - 1];
      assert (a + b)[..|a + b| - 1] == a + init;
      RecognisedAppend(a, init);
    } else {
      assert a + b == a;
    }
  }

  /** Filtering keeps every recognised occurrence, duplicates included, and drops every other one. */
  lemma {:induction false} RecognisedCounts(services: seq<string>, x: string)
    ensures multiset(Recognised(services))[x] == if Lookup(x).Some? then multiset(services)[x] else 0
    decreases |services|
  {
    if services != [] {
      var init := services[..|services| - 1];
      assert services == init + [services[|services| - 1]];
      RecognisedCounts(init, x);
    }
  }

  /**
   * Each request adds exactly its own enumerator's commands to the log, once,
   * and an unrecognised one adds none.
   */
  lemma IssuedPerRequest(ip: string, services: seq<string>, respond: Responder, j: nat)
    requires j < |services|
    ensures DispatchAll(ip, services[..j + 1], respond).issued
      == DispatchAll(ip, services[..j], respond).issued
         + (if Lookup(services[j]).Some? then Commands(Lookup(services[j]).value, ip) else [])
  {
    assert services[..j + 1][..j] == services[..j];
  }

  /** The keys of the result are exactly the distinct recognised names requested. */
  lemma {:induction false} DispatchKeySet(ip: string, services: seq<string>, respond: Responder)
    ensures DispatchAll(ip, services, respond).results.Keys == KnownNames(services)
    decreases |services|
  {
    if services != [] {
      var init, last := services[..|services| - 1], services[|services| - 1];
      DispatchKeySet(ip, init, respond);
      assert services == init + [last];
      assert forall s :: s in services <==> s in init || s == last;
    }
  }

  /**
   * Unrecognised names leave no trace: the dispatch equals the one over the
   * recognised names alone, so they never stop the processing of later names.
   */
  lemma {:induction false} UnknownNamesIgnored(ip: string, services: seq<string>, respond: Responder)
    ensures DispatchAll(ip, services, respond) == DispatchAll(ip, Recognised(services), respond)
    decreases |services|
  {
    if services != [] {
      var init, last := services[..|services| - 1], services[|services| - 1];
      UnknownNamesIgnored(ip, init, respond);
      if Lookup(last).Some? {
        var r := Recognised(init) + [last];
        assert r[..|r| - 1] == Recognised(init);
      }
    }
  }

  /**
   * Last write wins: the value stored under a name is the result of the
   * enumerator run for its last occurrence, which started after every command
   * issued by the requests before that occurrence.
   */
  lemma {:induction false} LastWriteWins(ip: string, services: seq<string>, respond: Responder, j: nat)
    requires j < |services| && Lookup(services[j]).Some?
    requires forall i :: j < i < |services| ==> services[i] != services[j]
    ensures var name := services[j];
      && name in DispatchAll(ip, services, respond).results
      && DispatchAll(ip, services, respond).results[name]
         == Enumerate(Lookup(name).value, ip, respond, |DispatchAll(ip, services[..j], respond).issued|)
    decreases |services|
  {
    var init := services[..|services| - 1];
    if j < |services| - 1 {
      assert init[..j] == services[..j];
      LastWriteWins(ip, init, respond, j);
    }
  }

  /** The commands issued for a prefix of the requests start the commands issued for all of them. */
  lemma {:induction false} IssuedGrows(ip: string, services: seq<string>, respond: Responder, i: nat)
    requires i <= |services|
    ensures var before, after := DispatchAll(ip, services[..i], respond).issued, DispatchAll(ip, services, respond).issued;
      |before| <= |after| && after[..|before|] == before
    decreases |services|
  {
    if i < |services| {
      var init := services[..|services| - 1];
      assert init[..i] == services[..i];
      IssuedGrows(ip, init, respond, i);
    } else {
      assert services[..i] == services;
    }
  }

  /**
   * Every recognised occurrence, duplicates included, runs its enumerator's
   * commands, in order, right after the commands of the requests before it.
   */
  lemma OccurrenceRunsItsCommands(ip: string, services: seq<string>, respond: Responder, j: nat)
    requires j < |services| && Lookup(services[j]).Some?
    ensures var n, cs, all :=
        |DispatchAll(ip, services[..j], respond).issued|,
        Commands(Lookup(services[j]).value, ip),
        DispatchAll(ip, services, respond).issued;
      n + |cs| <= |all| && all[n..n + |cs|] == cs
  {
    var p := services[..j + 1];
    assert p[..j] == services[..j];
    IssuedGrows(ip, services, respond, j + 1);
  }

  /**
   * process_services: the results map is built in place, one requested name at a
   * time; `issued` records the commands run on the way.
   */
  method ProcessServices(ip: string, services: seq<string>, respond: Responder)
    returns (results: map<string, EnumResult>, issued: seq<string>)
    ensures Progress(results, issued) == DispatchAll(ip, services, respond)
    ensures results.Keys == KnownNames(services)
  {
    results, issued := map[], [];
    for i := 0 to |services|
      invariant Progress(results, issued) == DispatchAll(ip, services[..i], respond)
    {
      assert services[..i + 1][..i] == services[..i];
      var service := services[i];
      match Lookup(service)
      case Some(s) =>
        results := results[service := Enumerate(s, ip, respond, |issued|)];
        issued := issued + Commands(s, ip);
      case None =>
    }
    assert services[..|services|] == services;
    DispatchKeySet(ip, services, respond);
  }

  /** A single "smb" request yields one key holding both SMB answers. */
  lemma SmbScenario(respond: Responder)
    ensures var p := DispatchAll("10.0.0.5", ["smb"], respond);
      && p.results.Keys == {"smb"}
      && p.results["smb"] == Keyed(map[
           "smbclient" := respond(0, "smbclient -L \\10.0.0.5 -N"),
           "rpcclient" := respond(1, "rpcclient -U \"\" 10.0.0.5")])
      && p.issued == ["smbclient -L \\10.0.0.5 -N", "rpcclient -U \"\" 10.0.0.5"]
  {
    var ip := "10.0.0.5";
    assert ["smb"][..0] == [];
    CommandsListed(ip);
    CommandLineText(ip);
    var p0 := DispatchAll(ip, [], respond);
    assert p0 == Progress(map[], []);
    assert DispatchAll(ip, ["smb"], respond) == Step(p0, ip, "smb", respond);
    assert "smbclient -L \\" + ip + " -N" == "smbclient -L \\10.0.0.5 -N";
    assert "rpcclient -U \"\" " + ip == "rpcclient -U \"\" 10.0.0.5";
  }

  /** An unknown name alone yields an empty result and runs nothing. */
  lemma UnknownScenario(respond: Responder)
    ensures DispatchAll("10.0.0.5", ["telnet"], respond) == Progress(map[], [])
  {
    assert ["telnet"][..0] == [];
  }

  /** Dispatching one more request is one more loop iteration. */
  lemma DispatchAppend(ip: string, services: seq<string>, name: string, respond: Responder)
    ensures DispatchAll(ip, services + [name], respond) == Step(DispatchAll(ip, services, respond), ip, name, respond)
  {
    assert (services + [name])[..|services|] == services;
  }

  /** A single "ftp" request runs the FTP probe once. */
  lemma FtpOnce(ip: string, respond: Responder)
    ensures DispatchAll(ip, ["ftp"], respond)
      == Progress(map["ftp" := Direct(respond(0, CommandLine(FtpAnon, ip)))], [CommandLine(FtpAnon, ip)])
  {
    assert ["ftp"][..0] == [];
    CommandsListed(ip);
  }

  /** A repeated name runs twice and keeps the second answer. */
  lemma RepeatScenario(ip: string, respond: Responder)
    ensures var p, c := DispatchAll(ip, ["ftp", "ftp"], respond), "nmap -p 21 --script ftp-anon " + ip;
      && p.results == map["ftp" := Direct(respond(1, c))]
      && p.issued == [c, c]
  {
    var c := CommandLine(FtpAnon, ip);
    assert c == "nmap -p 21 --script ftp-anon " + ip;
    var a, b := Direct(respond(0, c)), Direct(respond(1, c));
    FtpOnce(ip, respond);
    DispatchAppend(ip, ["ftp"], "ftp", respond);
    assert ["ftp"] + ["ftp"] == ["ftp", "ftp"];
    assert Lookup("ftp") == Some(Ftp);
    assert Commands(Ftp, ip) == [c] by { CommandsListed(ip); }
    var p1 := Progress(map["ftp" := a], [c]);
    assert Step(p1, ip, "ftp", respond) == Progress(map["ftp" := a]["ftp" := b], [c, c]);
    assert map["ftp" := a]["ftp" := b] == map["ftp" := b];
  }
}
