/** The responder (responders/responder.py): every action message is
    deduplicated by fingerprint in its own part of the Redis key space and
    then turned into at most one firewall command or an admin notice.
    Running the command is not part of this model; the text it would run
    is. */
module Responder {
  import opened Wrappers
  import opened Json
  import opened KeySpace
  import opened Dedup

  /** `DEDUP_TTL`, in seconds. */
  const DedupTtl: real := 30.0

  const KeyPrefix: string := "responder:dedupe:"

  /** `f"responder:dedupe:{fp}"`. */
  function DedupKey(fp: string): string {
    KeyPrefix + fp
  }

  const CommandHead: string := "sudo iptables -A INPUT -s "
  const CommandTail: string := " -j DROP"

  /** `f"sudo iptables -A INPUT -s {ip} -j DROP"`. */
  function BlockCommand(ip: Value): string {
    CommandHead + Display(ip) + CommandTail
  }

  /** The address text back out of a block command. */
  function CommandTarget(cmd: string): Option<string> {
    if |cmd| >= |CommandHead| + |CommandTail|
       && cmd[..|CommandHead|] == CommandHead
       && cmd[|cmd| - |CommandTail|..] == CommandTail
    then Some(cmd[|CommandHead|..|cmd| - |CommandTail|])
    else None
  }

  /** The command carries the address text unchanged, and nothing else
      varies: different address texts give different commands. */
  lemma CommandRoundTrip(ip: Value)
    ensures CommandTarget(BlockCommand(ip)) == Some(Display(ip))
  {
    var cmd := BlockCommand(ip);
    assert cmd[..|CommandHead|] == CommandHead;
    assert cmd[|cmd| - |CommandTail|..] == CommandTail;
    assert cmd[|CommandHead|..|cmd| - |CommandTail|] == Display(ip);
  }

  /** What one action message leads to. */
  datatype Response =
    | Invalid                    // not JSON: skipped before any key is written
    | Duplicate                  // fingerprint key live: skipped
    | Block(command: string)     // one iptables command
    | MissingIp                  // "block_ip" with a falsy or absent "ip"
    | AdminAlert(message: string)
    | Unknown                    // every other name, "monitor" included
    | Crashed                    // `.get` on something that is not a dict

  /** The action handlers, once the action got past deduplication. */
  function Respond(action: Value): (r: Response)
    ensures r.Block? ==> exists ip :: r == Block(BlockCommand(ip))
  {
    if !action.Obj? then Crashed
    else
      var name := Lookup(action.members, "name");
      var params := LookupOr(action.members, "params", Obj([]));
      if name == Some(Str("block_ip")) then
        if !params.Obj? then Crashed
        else
          var ip := LookupOr(params.members, "ip", Null);
          if Truthy(ip) then Block(BlockCommand(ip)) else MissingIp
      else if name == Some(Str("alert_admin")) then
        if !params.Obj? then Crashed
        else AdminAlert(Display(LookupOr(params.members, "message", Str(""))))
      else Unknown
  }

  /** One pass of the listen loop, on the key store. */
  function RespondStep(keys: Store, parsed: Option<Value>, now: real, sha1: string -> string): (r: (Store, Response))
  {
    match parsed
    case None => (keys, Invalid)
    case Some(action) =>
      var (after, isNew) := Claim(keys, DedupKey(Fingerprint(action, sha1)), now, DedupTtl);
      if isNew then (after, Respond(action)) else (keys, Duplicate)
  }

  /** Invalid JSON writes no key; an action whose key is live is skipped
      with the keys untouched; a new one has its key set for 30 seconds and
      is handled. */
  lemma RespondStepEffect(keys: Store, parsed: Option<Value>, now: real, sha1: string -> string)
    ensures parsed.None? ==> RespondStep(keys, parsed, now, sha1) == (keys, Invalid)
    ensures parsed.Some? ==>
              var key := DedupKey(Fingerprint(parsed.value, sha1));
              && (Live(keys, key, now) ==> RespondStep(keys, parsed, now, sha1) == (keys, Duplicate))
              && (!Live(keys, key, now) ==>
                    RespondStep(keys, parsed, now, sha1) == (keys[key := ExpiresAt(now + DedupTtl)], Respond(parsed.value)))
  {
    if parsed.Some? {
      ClaimEffect(keys, DedupKey(Fingerprint(parsed.value, sha1)), now, DedupTtl);
    }
  }

  /** Whether a message counts as a duplicate depends only on its key
      being live, and a handled one sets its key for 30 seconds. */
  lemma DuplicateIffLive(keys: Store, action: Value, now: real, sha1: string -> string)
    ensures var key := DedupKey(Fingerprint(action, sha1));
            && (RespondStep(keys, Some(action), now, sha1).1 == Duplicate <==> Live(keys, key, now))
            && (RespondStep(keys, Some(action), now, sha1).1 != Duplicate ==>
                  RespondStep(keys, Some(action), now, sha1).0 == keys[key := ExpiresAt(now + DedupTtl)])
  {
    RespondStepEffect(keys, Some(action), now, sha1);
  }

  /** A copy of a handled action, or one equal to it up to key order, is a
      duplicate for the next 30 seconds and is handled again after. */
  lemma DuplicateWindow(keys: Store, a: Value, b: Value, now: real, later: real, sha1: string -> string)
    requires WellFormed(a) && WellFormed(b) && SameUpToKeyOrder(a, b)
    requires RespondStep(keys, Some(a), now, sha1).1 != Duplicate
    requires now <= later
    ensures var k1 := RespondStep(keys, Some(a), now, sha1).0;
            (RespondStep(k1, Some(b), later, sha1).1 == Duplicate <==> later <= now + DedupTtl)
  {
    var key := DedupKey(Fingerprint(a, sha1));
    assert DedupKey(Fingerprint(b, sha1)) == key by {
      FingerprintIgnoresKeyOrder(a, b, sha1);
    }
    DuplicateIffLive(keys, a, now, sha1);
    var k1 := RespondStep(keys, Some(a), now, sha1).0;
    assert Live(k1, key, later) <==> later <= now + DedupTtl;
    DuplicateIffLive(k1, b, later, sha1);
  }

  /** A command is issued exactly for "block_ip" with a dict of params
      holding a truthy "ip" (a missing "params" counts as `{}`), and it is
      the iptables command for that address. An "alert_admin" action with
      dict params shows the text of its "message" (default ""). */
  lemma BlockIffIp(action: Value)
    ensures Respond(action).Block? <==>
              && action.Obj?
              && Lookup(action.members, "name") == Some(Str("block_ip"))
              && LookupOr(action.members, "params", Obj([])).Obj?
              && Truthy(LookupOr(LookupOr(action.members, "params", Obj([])).members, "ip", Null))
    ensures Respond(action).Block? ==>
              Respond(action).command ==
                BlockCommand(LookupOr(LookupOr(action.members, "params", Obj([])).members, "ip", Null))
    ensures Respond(action).AdminAlert? <==>
              && action.Obj?
              && Lookup(action.members, "name") == Some(Str("alert_admin"))
              && LookupOr(action.members, "params", Obj([])).Obj?
    ensures Respond(action).AdminAlert? ==>
              Respond(action).message ==
                Display(LookupOr(LookupOr(action.members, "params", Obj([])).members, "message", Str("")))
  {
  }

  /** "monitor", and any name other than the two handled ones, issues no
      command and cannot stop the loop once the action is a dict. */
  lemma OtherNamesIgnored(action: Value)
    requires action.Obj?
    requires Lookup(action.members, "name") != Some(Str("block_ip"))
    requires Lookup(action.members, "name") != Some(Str("alert_admin"))
    ensures Respond(action) == Unknown
  {
  }

  /** The responder's loop state: the part of Redis it writes. */
  class Responder {
    var keys: Store

    constructor ()
      ensures keys == map[]
    {
      keys := map[];
    }

    /** One iteration of the listen loop, given what `json.loads(raw)`
        returned (None when it raised). */
    method OnMessage(parsed: Option<Value>, now: real, sha1: string -> string) returns (r: Response)
      modifies this
      ensures (keys, r) == RespondStep(old(keys), parsed, now, sha1)
    {
      if parsed.None? {
        return Invalid;
      }
      var action := parsed.value;
      var key := DedupKey(Fingerprint(action, sha1));
      var (written, isNew) := SetIfAbsent(keys, key, now);
      if !isNew {
        return Duplicate;
      }
      keys := Expire(written, key, now, DedupTtl);
      if !action.Obj? {
        return Crashed;
      }
      var name := Lookup(action.members, "name");
      var params := LookupOr(action.members, "params", Obj([]));
      if name == Some(Str("block_ip")) {
        if !params.Obj? {
          return Crashed;
        }
        var ip := LookupOr(params.members, "ip", Null);
        if Truthy(ip) {
          r := Block(BlockCommand(ip));
        } else {
          r := MissingIp;
        }
      } else if name == Some(Str("alert_admin")) {
        if !params.Obj? {
          return Crashed;
        }
        r := AdminAlert(Display(LookupOr(params.members, "message", Str(""))));
      } else {
        r := Unknown;
      }
    }
  }
}
