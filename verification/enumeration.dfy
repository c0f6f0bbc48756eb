/**
 * The command lines each service enumerator runs and the result each one builds
 * (run_command, smb_enumeration, ldap_enumeration and ftp_enumeration in
 * service_enum.py). Running a command is an answer from the outside world.
 */
module Enumeration {
  import opened Wrappers

  /** What one external command leaves behind: stripped stdout, stripped stderr, exit status. */
  datatype CommandResult = CommandResult(stdout: string, stderr: string, returncode: int)

  /**
   * The outside world: the answer to the n-th command of the run (counted from 0),
   * given that command's text. Two runs of the same command may answer differently.
   */
  type Responder = (nat, string) -> CommandResult

  /** The four external tools the script invokes. */
  datatype Tool = SmbClient | RpcClient | LdapSearch | FtpAnon

  /** The fixed text before the target address. */
  function Prefix(t: Tool): string
  {
    match t
    case SmbClient => "smbclient -L \\"
    case RpcClient => "rpcclient -U \"\" "
    case LdapSearch => "nmap -p 389 --script ldap-search "
    case FtpAnon => "nmap -p 21 --script ftp-anon "
  }

  /** The fixed text after the target address. */
  function Suffix(t: Tool): string
  {
    if t == SmbClient then " -N" else ""
  }

  /** The shell command line for a tool aimed at an address. */
  function CommandLine(t: Tool, ip: string): (c: string)
    ensures |c| == |Prefix(t)| + |ip| + |Suffix(t)|
    ensures c[..|Prefix(t)|] == Prefix(t) && c[|c| - |Suffix(t)|..] == Suffix(t)
    ensures c[|Prefix(t)|..|c| - |Suffix(t)|] == ip
  {
    Prefix(t) + ip + Suffix(t)
  }

  /** The four command lines written out: a single backslash precedes the SMB address. */
  lemma CommandLineText(ip: string)
    ensures CommandLine(SmbClient, ip) == "smbclient -L \\" + ip + " -N"
    ensures CommandLine(RpcClient, ip) == "rpcclient -U \"\" " + ip
    ensures CommandLine(LdapSearch, ip) == "nmap -p 389 --script ldap-search " + ip
    ensures CommandLine(FtpAnon, ip) == "nmap -p 21 --script ftp-anon " + ip
    ensures |"smbclient -L \\"| == 14 && "smbclient -L \\"[13] == '\\'
  {
  }

  /** The address inside `c` if `c` has the shape of tool `t`'s command line. */
  function Unwrap(t: Tool, c: string): Option<string>
  {
    var p, s := Prefix(t), Suffix(t);
    if |p| + |s| <= |c| && c[..|p|] == p && c[|c| - |s|..] == s
    then Some(c[|p|..|c| - |s|])
    else None
  }

  /** Recovers the tool and the address from a command line. */
  function ParseCommandLine(c: string): Option<(Tool, string)>
  {
    match Unwrap(SmbClient, c)
    case Some(ip) => Some((SmbClient, ip))
    case None =>
      match Unwrap(RpcClient, c)
      case Some(ip) => Some((RpcClient, ip))
      case None =>
        match Unwrap(LdapSearch, c)
        case Some(ip) => Some((LdapSearch, ip))
        case None =>
          match Unwrap(FtpAnon, c)
          case Some(ip) => Some((FtpAnon, ip))
          case None => None
  }

  /** The prefixes of two different tools disagree at some position both have. */
  lemma PrefixesDiffer(t: Tool, u: Tool, c: string, ip: string)
    requires t != u && c == CommandLine(u, ip)
    ensures Unwrap(t, c) == None
  {
    var k := if {t, u} == {LdapSearch, FtpAnon} then 8 else 0;
    assert k < |Prefix(t)| && k < |Prefix(u)| && Prefix(t)[k] != Prefix(u)[k];
    if |Prefix(t)| + |Suffix(t)| <= |c| {
      assert c[..|Prefix(t)|][k] == Prefix(u)[k];
    }
  }

  /** Every command line names its tool and its address unambiguously. */
  lemma ParseCommandLineRoundTrip(t: Tool, ip: string)
    ensures ParseCommandLine(CommandLine(t, ip)) == Some((t, ip))
  {
    var c := CommandLine(t, ip);
    assert c[..|Prefix(t)|] == Prefix(t);
    assert c[|c| - |Suffix(t)|..] == Suffix(t);
    forall u | u != t ensures Unwrap(u, c) == None {
      PrefixesDiffer(u, t, c, ip);
    }
  }

  /** The converse: whatever parses is the command line it parses to. */
  lemma ParseCommandLineSound(c: string, t: Tool, ip: string)
    requires ParseCommandLine(c) == Some((t, ip))
    ensures c == CommandLine(t, ip)
  {
    var p, s := Prefix(t), Suffix(t);
    assert Unwrap(t, c) == Some(ip);
    assert c == c[..|p|] + c[|p|..|c| - |s|] + c[|c| - |s|..];
  }

  /** Different tools or different addresses never produce the same command line. */
  lemma CommandLineInjective(t: Tool, a: string, u: Tool, b: string)
    requires CommandLine(t, a) == CommandLine(u, b)
    ensures t == u && a == b
  {
    ParseCommandLineRoundTrip(t, a);
    ParseCommandLineRoundTrip(u, b);
  }

  /** The three services the dispatcher knows. */
  datatype Service = Smb | Ldap | Ftp

  /** The tools a service's enumerator runs, in the order it runs them. */
  function Tools(s: Service): seq<Tool>
  {
    match s
    case Smb => [SmbClient, RpcClient]
    case Ldap => [LdapSearch]
    case Ftp => [FtpAnon]
  }

  /** The command lines a service's enumerator runs against an address, in order. */
  function Commands(s: Service, ip: string): (cs: seq<string>)
    ensures |cs| == |Tools(s)|
    ensures forall i :: 0 <= i < |cs| ==> ParseCommandLine(cs[i]) == Some((Tools(s)[i], ip))
  {
    var ts := Tools(s);
    forall i | 0 <= i < |ts| ensures ParseCommandLine(CommandLine(ts[i], ip)) == Some((ts[i], ip)) {
      ParseCommandLineRoundTrip(ts[i], ip);
    }
    seq(|ts|, i requires 0 <= i < |ts| => CommandLine(ts[i], ip))
  }

  /** The command lists written out per service. */
  lemma CommandsListed(ip: string)
    ensures Commands(Smb, ip) == [CommandLine(SmbClient, ip), CommandLine(RpcClient, ip)]
    ensures Commands(Ldap, ip) == [CommandLine(LdapSearch, ip)]
    ensures Commands(Ftp, ip) == [CommandLine(FtpAnon, ip)]
  {
  }

  /**
   * What an enumerator returns: SMB keys its two answers by tool name, the
   * single-command services return their answer directly.
   */
  datatype EnumResult = Keyed(subs: map<string, CommandResult>) | Direct(result: CommandResult)

  /** The enumerator for service `s`, whose first command is the run's n-th. */
  function Enumerate(s: Service, ip: string, respond: Responder, n: nat): (r: EnumResult)
    ensures r.Keyed? <==> s == Smb
    ensures r.Keyed? ==> r.subs.Keys == {"smbclient", "rpcclient"}
    ensures r.Direct? ==> r.result == respond(n, Commands(s, ip)[0])
  {
    CommandsListed(ip);
    match s
    case Smb =>
      Keyed(map[
        "smbclient" := respond(n, CommandLine(SmbClient, ip)),
        "rpcclient" := respond(n + 1, CommandLine(RpcClient, ip))])
    case Ldap => Direct(respond(n, CommandLine(LdapSearch, ip)))
    case Ftp => Direct(respond(n, CommandLine(FtpAnon, ip)))
  }

  /**
   * Each enumerator's result is made of the answers to exactly its own commands,
   * asked in order: SMB holds exactly the keys "smbclient" and "rpcclient".
   */
  lemma EnumerateAnswersItsCommands(s: Service, ip: string, respond: Responder, n: nat)
    ensures s == Smb ==>
      var r := Enumerate(s, ip, respond, n);
      && r.Keyed?
      && r.subs.Keys == {"smbclient", "rpcclient"}
      && r.subs["smbclient"] == respond(n, Commands(s, ip)[0])
      && r.subs["rpcclient"] == respond(n + 1, Commands(s, ip)[1])
    ensures s != Smb ==>
      Enumerate(s, ip, respond, n) == Direct(respond(n, Commands(s, ip)[0]))
  {
  }
}
