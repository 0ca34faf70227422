/** The agent's pinned keys in memory and on file (linux_agent/config.py, linux_agent/agent.py), each method
    one step of a run of PinRuns. */
module AgentConfig {
  import opened Text
  import opened Signing
  import opened KeyRotation
  import opened PinRuns

  /** What the signing-key request came to. */
  datatype KeyReply = ApiError | IoError | Keys(items: seq<(string, PublicKey)>)

  /** The cycle goes on, ends with an exception `main` catches, or the process dies of one it does not catch
      and starts again. */
  datatype Outcome = Continued | Failed | Died

  /** The dictionary in memory and the configuration file. A save replaces the file or raises and leaves it:
      `writes` is the outcome. */
  class AgentConfig {
    var signingPublicKeys: Pins
    var file: ConfigFile
    ghost var states: seq<Agent>
    ghost var steps: seq<Step>

    ghost function View(): Agent
      reads this
    {
      Agent(signingPublicKeys, file)
    }

    ghost predicate Valid()
      reads this
    {
      IsRun(states, steps) && states[|steps|] == View()
    }

    constructor (file: ConfigFile)
      requires Loaded(file).Some?
      ensures Valid() && this.file == file && Loaded(file) == Some(signingPublicKeys)
    {
      this.file, signingPublicKeys := file, Loaded(file).value;
      states, steps := [Agent(Loaded(file).value, file)], [];
    }

    ghost method Record(step: Step)
      requires IsRun(states, steps) && Next(states[|steps|], step, View())
      modifies this`states, this`steps
      ensures Valid() && steps == old(steps) + [step] && states == old(states) + [View()]
    {
      states, steps := states + [View()], steps + [step];
    }

    /** A start of the process: the dictionary is read back from the file, an older format migrated. */
    method Load()
      requires Valid()
      modifies this
      ensures Valid() && file == old(file) && Loaded(file) == Some(signingPublicKeys)
    {
      RunKeeps(states, steps, |steps|);
      signingPublicKeys := Loaded(file).value;
      Record(Restart);
    }

    method Save(writes: bool) returns (saved: bool)
      modifies this`file
      ensures saved == writes
      ensures if writes then Saves(file, signingPublicKeys) else file == old(file)
    {
      if writes {
        var order := ListVersions(signingPublicKeys);
        file := ConfigFile(Items(order, signingPublicKeys), None, None);
      }
      return writes;
    }

    /** _merge_signing_keys on a reply's item list; a text that is no number raises before the rest is read. */
    method MergeSigningKeys(keys: seq<(string, PublicKey)>) returns (changed: bool, raised: bool)
      modifies this`signingPublicKeys
      ensures signingPublicKeys == MergeItems(old(signingPublicKeys), keys)
      ensures raised <==> Raises(keys)
      ensures changed <==> signingPublicKeys != old(signingPublicKeys)
    {
      changed, raised := false, false;
      for i := 0 to |keys|
        invariant signingPublicKeys == MergeItems(old(signingPublicKeys), keys[..i])
        invariant !raised && !Raises(keys[..i]) && (changed <==> signingPublicKeys != old(signingPublicKeys))
      {
        MergeOnlyAdds(old(signingPublicKeys), keys[..i]);
        assert keys[..i + 1][..i] == keys[..i] && keys[..i + 1][i] == keys[i];
        var version := ParseInt(keys[i].0);
        if version.None? {
          RaisingStops(old(signingPublicKeys), keys, i);
          raised := true;
          return;
        }
        if version.value !in signingPublicKeys {
          signingPublicKeys := signingPublicKeys[version.value := keys[i].1];
          changed := true;
          assert version.value in signingPublicKeys.Keys && version.value !in old(signingPublicKeys).Keys;
        }
      }
      assert keys[..|keys|] == keys;
    }

    /** ensure_signing_key: new versions are pinned in memory first and saved afterwards; without any news
        nothing is saved. An API error is tolerated while some key is pinned. */
    method EnsureSigningKey(reply: KeyReply, writes: bool) returns (outcome: Outcome)
      requires Valid()
      modifies this
      ensures Valid()
      ensures reply.ApiError? ==> outcome == if old(signingPublicKeys) != map[] then Continued else Failed
      ensures reply.IoError? ==> outcome == Failed
      ensures !reply.Keys? ==> View() == old(View()) && steps == old(steps)
      ensures reply.Keys? ==>
          Next(old(View()), Offer(reply.items, writes), View()) && steps == old(steps) + [Offer(reply.items, writes)]
      ensures reply.Keys? ==>
        && (outcome.Died? <==> Raises(reply.items))
        && (outcome.Failed? <==> !outcome.Died? && !writes && signingPublicKeys != old(signingPublicKeys))
    {
      match reply
      case ApiError => return if signingPublicKeys != map[] then Continued else Failed;
      case IoError => return Failed;
      case Keys(items) =>
        RunKeeps(states, steps, |steps|);
        var changed, raised := MergeSigningKeys(items);
        if raised {
          signingPublicKeys := Loaded(file).value;
          Record(Offer(items, writes));
          return Died;
        }
        outcome := Continued;
        if changed {
          var saved := Save(writes);
          outcome := if saved then Continued else Failed;
        }
        Record(Offer(items, writes));
    }

    /** The end of enroll: merged and saved in any case; a save that fails ends the cycle. */
    method FinishEnrollment(keys: seq<(string, PublicKey)>, writes: bool) returns (outcome: Outcome)
      requires Valid()
      modifies this
      ensures Valid() && Next(old(View()), Enroll(keys, writes), View()) && steps == old(steps) + [Enroll(keys, writes)]
      ensures outcome == if Raises(keys) then Died else if writes then Continued else Failed
    {
      RunKeeps(states, steps, |steps|);
      var changed, raised := MergeSigningKeys(keys);
      if raised {
        signingPublicKeys := Loaded(file).value;
        outcome := Died;
      } else {
        var saved := Save(writes);
        outcome := if saved then Continued else Failed;
      }
      Record(Enroll(keys, writes));
    }
  }
}
