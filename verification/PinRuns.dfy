/** Signing-key pins over whole runs of the agent: version bumps, offers from anybody, saves that may fail,
    restarts, and the migration of an older configuration file (linux_agent/agent.py, linux_agent/config.py). */
module PinRuns {
  import opened Text
  import opened Signing
  import opened Server
  import opened KeyRotation

  /** The pins in memory and the configuration file. */
  datatype Agent = Agent(mem: Pins, file: ConfigFile)

  datatype Step =
    | Offer(items: seq<(string, PublicKey)>, writes: bool)
    | Enroll(items: seq<(string, PublicKey)>, writes: bool)
    | Restart

  /** The pins a start of the process would read from the file. */
  function OnFile(s: Agent): Pins {
    if Loaded(s.file).Some? then Loaded(s.file).value else map[]
  }

  /** The process starts over: after a restart, or because a version text was no number. */
  predicate Restarts(step: Step) {
    step.Restart? || Raises(step.items)
  }

  /** A refresh saves only when it added a pin; enrollment always saves. */
  predicate Writes(s: Agent, step: Step) {
    !Restarts(step) && step.writes && (step.Enroll? || MergeItems(s.mem, step.items) != s.mem)
  }

  ghost predicate Next(s: Agent, step: Step, t: Agent) {
    if Restarts(step) then t == Agent(OnFile(s), s.file)
    else
      && t.mem == MergeItems(s.mem, step.items)
      && if Writes(s, step) then Saves(t.file, t.mem) else t.file == s.file
  }

  /** A run from any file that loads, in either format. */
  ghost predicate IsRun(states: seq<Agent>, steps: seq<Step>) {
    && |states| == |steps| + 1
    && Loaded(states[0].file) == Some(states[0].mem)
    && forall i {:trigger steps[i]} :: 0 <= i < |steps| ==> Next(states[i], steps[i], states[i + 1])
  }

  /** The memory never holds less than the file, nor anything else under a version of the file. */
  ghost predicate Inv(s: Agent) {
    Loaded(s.file).Some? && Extends(OnFile(s), s.mem)
  }

  lemma NextKeeps(s: Agent, step: Step, t: Agent)
    requires Inv(s) && Next(s, step, t)
    ensures Inv(t) && Extends(OnFile(s), OnFile(t))
    ensures !Restarts(step) ==> Extends(s.mem, t.mem)
    ensures Writes(s, step) ==> OnFile(t) == t.mem
    ensures !Writes(s, step) ==> OnFile(t) == OnFile(s)
  {
    if !Restarts(step) {
      MergeOnlyAdds(s.mem, step.items);
      if Writes(s, step) {
        LoadInvertsSave(t.file, t.mem);
      }
    }
  }

  lemma {:induction false} RunKeeps(states: seq<Agent>, steps: seq<Step>, i: nat)
    requires IsRun(states, steps) && i < |states|
    ensures Inv(states[i])
  {
    if i > 0 {
      RunKeeps(states, steps, i - 1);
      assert Next(states[i - 1], steps[i - 1], states[i]);
      NextKeeps(states[i - 1], steps[i - 1], states[i]);
    }
  }

  /** A pin on file keeps its key for good, on file and in memory, through anything that follows. */
  lemma {:induction false} FilePinsOnlyGrow(states: seq<Agent>, steps: seq<Step>, i: nat, j: nat)
    requires IsRun(states, steps) && i <= j < |states|
    ensures Extends(OnFile(states[i]), OnFile(states[j])) && Extends(OnFile(states[i]), states[j].mem)
  {
    RunKeeps(states, steps, j);
    if i < j {
      FilePinsOnlyGrow(states, steps, i, j - 1);
      RunKeeps(states, steps, j - 1);
      assert Next(states[j - 1], steps[j - 1], states[j]);
      NextKeeps(states[j - 1], steps[j - 1], states[j]);
    }
  }

  ghost predicate Uninterrupted(steps: seq<Step>, i: nat, j: nat)
    requires i <= j <= |steps|
  {
    forall k :: i <= k < j ==> !Restarts(steps[k])
  }

  /** Within one process a pin keeps its key, saved or not. */
  lemma {:induction false} MemoryPinsUntilRestart(states: seq<Agent>, steps: seq<Step>, i: nat, j: nat)
    requires IsRun(states, steps) && i <= j < |states| && Uninterrupted(steps, i, j)
    ensures Extends(states[i].mem, states[j].mem)
  {
    if i < j {
      MemoryPinsUntilRestart(states, steps, i, j - 1);
      RunKeeps(states, steps, j - 1);
      assert Next(states[j - 1], steps[j - 1], states[j]);
      NextKeeps(states[j - 1], steps[j - 1], states[j]);
    }
  }

  ghost predicate SavedBetween(states: seq<Agent>, steps: seq<Step>, i: nat, j: nat)
    requires i <= j <= |steps| && |states| == |steps| + 1
  {
    exists k :: i <= k < j && Writes(states[k], steps[k])
  }

  lemma SavedSnoc(states: seq<Agent>, steps: seq<Step>, i: nat, j: nat)
    requires i < j <= |steps| && |states| == |steps| + 1
    ensures SavedBetween(states, steps, i, j)
        <==> SavedBetween(states, steps, i, j - 1) || Writes(states[j - 1], steps[j - 1])
  {
  }

  lemma OnFileStep(s: Agent, step: Step, t: Agent, v: int)
    requires Inv(s) && Next(s, step, t) && !Restarts(step) && v in s.mem
    ensures v in OnFile(t) <==> v in OnFile(s) || Writes(s, step)
  {
    NextKeeps(s, step, t);
  }

  lemma {:induction false} OnFileExactly(states: seq<Agent>, steps: seq<Step>, i: nat, j: nat, v: int)
    requires IsRun(states, steps) && i <= j <= |steps| && Uninterrupted(steps, i, j) && v in states[i].mem
    ensures v in OnFile(states[j]) <==> v in OnFile(states[i]) || SavedBetween(states, steps, i, j)
  {
    if i < j {
      OnFileExactly(states, steps, i, j - 1, v);
      SavedSnoc(states, steps, i, j);
      MemoryPinsUntilRestart(states, steps, i, j - 1);
      RunKeeps(states, steps, j - 1);
      OnFileStep(states[j - 1], steps[j - 1], states[j], v);
    }
  }

  /** A pin in memory survives the next restart exactly when it was on file already or some save succeeded
      in between; it then keeps its key, and otherwise the version is unknown again. */
  lemma PinSurvivesExactly(states: seq<Agent>, steps: seq<Step>, i: nat, j: nat, v: int)
    requires IsRun(states, steps) && i <= j < |steps| && Uninterrupted(steps, i, j) && v in states[i].mem
    requires Restarts(steps[j])
    ensures v in states[j + 1].mem <==> v in OnFile(states[i]) || SavedBetween(states, steps, i, j)
    ensures v in states[j + 1].mem ==> states[j + 1].mem[v] == states[i].mem[v]
  {
    OnFileExactly(states, steps, i, j, v);
    MemoryPinsUntilRestart(states, steps, i, j);
    RunKeeps(states, steps, j);
    assert Next(states[j], steps[j], states[j + 1]);
  }

  /** A refresh that brings no new version writes nothing, so a failed save is not made up for by later ones. */
  lemma FailedSaveIsNotRetried(s: Agent, items: seq<(string, PublicKey)>, writes: bool, t: Agent)
    requires !Raises(items) && Next(s, Offer(items, writes), t)
    requires forall i :: 0 <= i < |items| ==> ParseInt(items[i].0).value in s.mem
    ensures t == s
  {
    NothingNew(s.mem, items);
  }

  lemma {:induction false} NothingNew(pins: Pins, items: seq<(string, PublicKey)>)
    requires !Raises(items) && forall i :: 0 <= i < |items| ==> ParseInt(items[i].0).value in pins
    ensures MergeItems(pins, items) == pins
  {
    if items != [] {
      var n := |items| - 1;
      assert forall i :: 0 <= i < n ==> items[..n][i] == items[i];
      NothingNew(pins, items[..n]);
    }
  }

  function OnePin(v: int, key: PublicKey): ConfigFile {
    ConfigFile(Items([v], map[v := key]), None, None)
  }

  lemma OnePinSaved(v: int, key: PublicKey)
    ensures Saves(OnePin(v, key), map[v := key]) && Loaded(OnePin(v, key)) == Some(map[v := key])
  {
    assert Lists([v], (map[v := key]).Keys);
    LoadInvertsSave(OnePin(v, key), map[v := key]);
  }

  const BLANK := ConfigFile([], None, None)

  lemma FirstPin(text: string, v: int, key: PublicKey, writes: bool)
    requires ParseInt(text) == Some(v)
    ensures
      var after := Agent(map[v := key], if writes then OnePin(v, key) else BLANK);
      Next(Agent(map[], BLANK), Offer([(text, key)], writes), after)
  {
    OneOffer(text, v, key);
    OnePinSaved(v, key);
    assert v in (map[v := key]).Keys;
  }

  lemma OneOffer(text: string, v: int, key: PublicKey)
    requires ParseInt(text) == Some(v)
    ensures !Raises([(text, key)]) && MergeItems(map[], [(text, key)]) == map[v := key]
  {
    var items := [(text, key)];
    assert items[..0] == [];
  }

  /** The losing run: a version pinned while the save fails, a restart, and another key offered next. Any
      version, written in any way, and any two keys will do; the second one ends up pinned, on file. */
  lemma LostPinCanChange(text: string, v: int, first: PublicKey, second: PublicKey)
      returns (states: seq<Agent>, steps: seq<Step>)
    requires ParseInt(text) == Some(v)
    ensures IsRun(states, steps) && |steps| == 3
    ensures steps == [Offer([(text, first)], false), Restart, Offer([(text, second)], true)]
    ensures states[1].mem == map[v := first] && states[3].mem == map[v := second]
    ensures OnFile(states[3]) == map[v := second]
  {
    FirstPin(text, v, first, false);
    FirstPin(text, v, second, true);
    OnePinSaved(v, second);
    steps := [Offer([(text, first)], false), Restart, Offer([(text, second)], true)];
    states := [Agent(map[], BLANK), Agent(map[v := first], BLANK), Agent(map[], BLANK),
               Agent(map[v := second], OnePin(v, second))];
    assert Next(states[0], steps[0], states[1]) && Next(states[1], steps[1], states[2])
        && Next(states[2], steps[2], states[3]);
  }

  /** A legacy pin is part of the very first memory, and stays for good: also through the save that drops the
      older format. */
  lemma LegacyPinStays(states: seq<Agent>, steps: seq<Step>, j: nat, v: int)
    requires IsRun(states, steps) && j < |states|
    requires states[0].file.legacyKey.Some? && states[0].file.legacyVersion == Some(IntText(v))
    ensures v in states[j].mem
    ensures LoadKeys(states[0].file.signingKeys).Some?
    ensures states[j].mem[v] == (if v in LoadKeys(states[0].file.signingKeys).value
                                 then LoadKeys(states[0].file.signingKeys).value[v] else states[0].file.legacyKey.value)
  {
    MigrationKeepsLegacyPin(states[0].file, v);
    FilePinsOnlyGrow(states, steps, 0, j);
  }

  // ---- Verification along a run

  /** A pin of state i gets through to state j: it was on file, or the first restart in between, if there is
      one, came after a save. */
  ghost predicate Kept(states: seq<Agent>, steps: seq<Step>, i: nat, j: nat, v: int)
    requires i <= j <= |steps| && |states| == |steps| + 1
  {
    && v in states[i].mem
    && (v in OnFile(states[i])
        || forall k :: i <= k < j && FirstRestart(steps, i, k) ==> SavedBetween(states, steps, i, k))
  }

  ghost predicate FirstRestart(steps: seq<Step>, i: nat, k: nat)
    requires i <= k < |steps|
  {
    Restarts(steps[k]) && Uninterrupted(steps, i, k)
  }

  lemma {:induction false} FirstRestartExists(steps: seq<Step>, i: nat, j: nat) returns (k: nat)
    requires i <= j <= |steps| && !Uninterrupted(steps, i, j)
    ensures i <= k < j && FirstRestart(steps, i, k)
  {
    if Uninterrupted(steps, i, j - 1) {
      k := j - 1;
    } else {
      k := FirstRestartExists(steps, i, j - 1);
    }
  }

  lemma KeptStays(states: seq<Agent>, steps: seq<Step>, i: nat, j: nat, v: int)
    requires IsRun(states, steps) && i <= j < |states| && Kept(states, steps, i, j, v)
    ensures v in states[j].mem && states[j].mem[v] == states[i].mem[v]
  {
    if Uninterrupted(steps, i, j) {
      MemoryPinsUntilRestart(states, steps, i, j);
    } else {
      var k := FirstRestartExists(steps, i, j);
      OnFileExactly(states, steps, i, k, v);
      MemoryPinsUntilRestart(states, steps, i, k);
      RunKeeps(states, steps, k);
      FilePinsOnlyGrow(states, steps, k, j);
    }
  }

  /** Exactly the kept pins are there all the time, with one and the same key. */
  lemma KeptExactly(states: seq<Agent>, steps: seq<Step>, i: nat, j: nat, v: int)
    requires IsRun(states, steps) && i <= j < |states| && v in states[i].mem
    ensures Kept(states, steps, i, j, v)
            <==> forall k :: i <= k <= j ==> v in states[k].mem && states[k].mem[v] == states[i].mem[v]
  {
    if Kept(states, steps, i, j, v) {
      forall k | i <= k <= j ensures v in states[k].mem && states[k].mem[v] == states[i].mem[v] {
        KeptStays(states, steps, i, k, v);
      }
    } else {
      var k :| i <= k < j && FirstRestart(steps, i, k) && !SavedBetween(states, steps, i, k);
      PinSurvivesExactly(states, steps, i, k, v);
      assert v !in states[k + 1].mem;
    }
  }

  /** A refresh answered by the control plane at version c with the given window. */
  ghost predicate Refresh(seed: string, step: Step, c: int, window: int) {
    step.Offer? && exists order: seq<int> ::
      Lists(order, ActivePublicKeys(seed, c, window).Keys)
          && step.items == Items(order, ActivePublicKeys(seed, c, window))
  }

  lemma RefreshPins(s: Agent, seed: string, step: Step, c: int, window: int, t: Agent)
    requires Refresh(seed, step, c, window) && Next(s, step, t)
    ensures !Restarts(step) && t.mem == Merged(s.mem, ActivePublicKeys(seed, c, window))
  {
    var active := ActivePublicKeys(seed, c, window);
    var order: seq<int> :| Lists(order, active.Keys) && step.items == Items(order, active);
    MergeOfItems(s.mem, order, active);
  }

  lemma ItemsParse(order: seq<int>, offered: Pins)
    ensures !Raises(Items(order, offered))
  {
    forall i | 0 <= i < |order| ensures ParseInt(Items(order, offered)[i].0).Some? {
      ParseInvertsIntText(order[i]);
    }
  }

  lemma ItemAt(order: seq<int>, offered: Pins, i: nat)
    requires i < |order| && order[i] in offered
    ensures ParseInt(Items(order, offered)[i].0) == Some(order[i]) && Items(order, offered)[i].1 == offered[order[i]]
  {
    ParseInvertsIntText(order[i]);
  }

  /** The old pins, and those offered for the listed versions. */
  ghost predicate Filled(pins: Pins, order: seq<int>, offered: Pins, merged: Pins) {
    && merged.Keys == pins.Keys + Versions(order)
    && forall v <- merged :: (v in pins || v in offered) && merged[v] == if v in pins then pins[v] else offered[v]
  }

  lemma FilledSnoc(pins: Pins, order: seq<int>, v: int, offered: Pins, before: Pins)
    requires Filled(pins, order, offered, before) && v in offered
    ensures Filled(pins, order + [v], offered, if v in before then before else before[v := offered[v]])
  {
    assert Versions(order + [v]) == Versions(order) + {v};
  }

  lemma MergeOneMore(pins: Pins, order: seq<int>, offered: Pins, n: nat)
    requires n < |order| && order[n] in offered
    ensures
      var items, v := Items(order, offered), order[n];
      var before := MergeItems(pins, items[..n]);
      MergeItems(pins, items[..n + 1]) == if v in before then before else before[v := offered[v]]
  {
    ItemsParse(order, offered);
    ItemAt(order, offered, n);
    MergeSnoc(pins, Items(order, offered), n);
  }

  lemma {:induction false} MergeOfPrefix(pins: Pins, order: seq<int>, offered: Pins, n: nat)
    requires n <= |order| && forall v <- order :: v in offered
    ensures Filled(pins, order[..n], offered, MergeItems(pins, Items(order, offered)[..n]))
  {
    if n > 0 {
      var v := order[n - 1];
      assert v in order;
      MergeOfPrefix(pins, order, offered, n - 1);
      MergeOneMore(pins, order, offered, n - 1);
      FilledSnoc(pins, order[..n - 1], v, offered, MergeItems(pins, Items(order, offered)[..n - 1]));
      assert order[..n] == order[..n - 1] + [v];
    }
  }

  lemma MergeOfItems(pins: Pins, order: seq<int>, offered: Pins)
    requires Lists(order, offered.Keys)
    ensures !Raises(Items(order, offered)) && MergeItems(pins, Items(order, offered)) == Merged(pins, offered)
  {
    ItemsParse(order, offered);
    assert forall v <- order :: v in Versions(order);
    MergeOfPrefix(pins, order, offered, |order|);
    assert Items(order, offered)[..|order|] == Items(order, offered) && order[..|order|] == order;
    FilledIsMerged(pins, order, offered, MergeItems(pins, Items(order, offered)));
  }

  lemma FilledIsMerged(pins: Pins, order: seq<int>, offered: Pins, merged: Pins)
    requires Filled(pins, order, offered, merged) && Lists(order, offered.Keys)
    ensures merged == Merged(pins, offered)
  {
    assert Merged(pins, offered).Keys == offered.Keys + pins.Keys;
    assert merged.Keys == Merged(pins, offered).Keys;
    assert forall v <- merged :: merged[v] == Merged(pins, offered)[v];
  }

  /** After a refresh at version c every version from max(1, c - window) to c is pinned, and as long as the
      pin is kept it stays so, whatever versions are current later. */
  lemma RefreshCoversWindow(states: seq<Agent>, steps: seq<Step>, i: nat, j: nat, seed: string, c: int, window: int,
                            v: int)
    requires IsRun(states, steps) && i < j < |states| && Refresh(seed, steps[i], c, window)
    requires Max(1, c - window) <= v <= c
    ensures v in states[i + 1].mem
    ensures Kept(states, steps, i + 1, j, v) ==> v in states[j].mem
  {
    assert Next(states[i], steps[i], states[i + 1]);
    RefreshPins(states[i], seed, steps[i], c, window, states[i + 1]);
    assert v in ActivePublicKeys(seed, c, window);
    if Kept(states, steps, i + 1, j, v) {
      KeptStays(states, steps, i + 1, j, v);
    }
  }

  /** Only keys of the control plane are ever offered, and the file starts with none but those. */
  ghost predicate Honest(states: seq<Agent>, steps: seq<Step>, seed: string)
    requires |states| == |steps| + 1
  {
    && Genuine(seed, states[0].mem)
    && forall i :: 0 <= i < |steps| && !steps[i].Restart? ==> GenuineItems(seed, steps[i].items)
  }

  /** A reply whose items, as far as they parse, are keys of the control plane. */
  ghost predicate GenuineItems(seed: string, items: seq<(string, PublicKey)>) {
    forall k :: 0 <= k < |items| && ParseInt(items[k].0).Some? ==>
        items[k].1 == PublicKeyPem(seed, ParseInt(items[k].0).value)
  }

  lemma NextStaysGenuine(s: Agent, step: Step, t: Agent, seed: string)
    requires Inv(s) && Next(s, step, t) && Genuine(seed, s.mem) && (!step.Restart? ==> GenuineItems(seed, step.items))
    ensures Genuine(seed, t.mem)
  {
    if !Restarts(step) {
      MergeOnlyAdds(s.mem, step.items);
    }
  }

  lemma {:induction false} HonestStaysGenuine(states: seq<Agent>, steps: seq<Step>, seed: string, i: nat)
    requires IsRun(states, steps) && Honest(states, steps, seed) && i < |states|
    ensures Genuine(seed, states[i].mem)
  {
    if i > 0 {
      HonestStaysGenuine(states, steps, seed, i - 1);
      RunKeeps(states, steps, i - 1);
      assert Next(states[i - 1], steps[i - 1], states[i]);
      NextStaysGenuine(states[i - 1], steps[i - 1], states[i], seed);
    }
  }

  /** End to end: a claim granted by the control plane under a version in the window of some refresh is
      accepted by the addressed device until the lease ends, as long as that pin is kept; afterwards it is
      refused. */
  lemma GrantedEnvelopesVerify(
      states: seq<Agent>, steps: seq<Step>, i: nat, j: nat, current: int, window: int,
      c: Config, s: State, id: string, nonce: string, granted: int, supported: map<string, set<int>>, now: int)
    requires IsRun(states, steps) && Honest(states, steps, c.seed) && i < j < |states|
    requires Refresh(c.seed, steps[i], current, window) && Max(1, current - window) <= c.keyVersion <= current
    requires Kept(states, steps, i + 1, j, c.keyVersion)
    requires id in s.actions && s.actions[id].skillId in s.skills
    requires s.actions[id].skillId in supported
        && s.skills[s.actions[id].skillId].version in supported[s.actions[id].skillId]
    ensures
      var fields, row := ClaimFields(c, s, id, nonce, granted), s.actions[id];
      VerifyEnvelope(fields, SignEnvelope(fields, c.seed, c.keyVersion), states[j].mem, row.device, row.tenant,
                     supported, now).None?
      <==> now < granted + LEASE
  {
    var fields := ClaimFields(c, s, id, nonce, granted);
    HonestStaysGenuine(states, steps, c.seed, j);
    RefreshCoversWindow(states, steps, i, j, c.seed, current, window, c.keyVersion);
    AcceptedExactlyWhenSigned(c.seed, states[j].mem, fields, SignEnvelope(fields, c.seed, c.keyVersion),
                              s.actions[id].device, s.actions[id].tenant, supported, now);
  }

  /** What the design promises and the agent does not do: a version that has fallen out of the window stays
      trusted as long as its pin is kept, on file for good. */
  lemma RetiredVersionsStayTrusted(
      states: seq<Agent>, steps: seq<Step>, i: nat, j: nat, seed: string, fields: Fields,
      supported: map<string, set<int>>, now: int)
    requires IsRun(states, steps) && i <= j < |states| && Kept(states, steps, i, j, fields.keyVersion)
    requires states[i].mem[fields.keyVersion] == PublicKeyPem(seed, fields.keyVersion)
    requires now < fields.expiresAt && fields.skillId in supported && fields.skillVersion in supported[fields.skillId]
    ensures VerifyEnvelope(fields, SignEnvelope(fields, seed, fields.keyVersion), states[j].mem,
                           fields.deviceId, fields.tenantId, supported, now).None?
  {
    KeptStays(states, steps, i, j, fields.keyVersion);
  }

  /** A version pinned to a foreign key is not repaired as long as that pin is kept, on file for good: no
      envelope the control plane signs under it is accepted meanwhile. */
  lemma WrongPinStays(
      states: seq<Agent>, steps: seq<Step>, i: nat, j: nat, seed: string, fields: Fields, device: string,
      tenant: string,
      supported: map<string, set<int>>, now: int)
    requires IsRun(states, steps) && i <= j < |states| && Kept(states, steps, i, j, fields.keyVersion)
    requires states[i].mem[fields.keyVersion] != PublicKeyPem(seed, fields.keyVersion)
    ensures VerifyEnvelope(fields, SignEnvelope(fields, seed, fields.keyVersion), states[j].mem, device, tenant,
                           supported, now)
            == Some(InvalidSignature)
  {
    KeptStays(states, steps, i, j, fields.keyVersion);
  }
}
