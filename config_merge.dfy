/**
 * The default configuration and merge_default of src/simbot/simbot_bootstrap.py:
 * every key of the template that a configuration dict lacks is added with the
 * template's value, and the merge descends into a key only where the
 * template's value is itself a dict.
 */
module ConfigMerge {
  import opened Wrappers
  import opened ConfigTree

  /** The message of the TypeError raised when a dict was expected. */
  const EXPECTING_A_DICT: string := "Expecting a dict."

  /** _DEFAULT_CONFIG_DICT: every recognised key, with its default value, in the source's order. */
  const DefaultConfig: Json := JObj([
    ("bot_login_token", JStr("PLACEHOLDER")),
    ("bot_owner_id", JStr("PLACEHOLDER")),
    ("paths", JObj([
      ("data_folder", JStr("./data/")),
      ("logfile", JStr("./simbot.log"))])),
    ("logging", JObj([
      ("logfile_simbot_level", JStr("WARNING")),
      ("logfile_libraries_level", JStr("WARNING")),
      ("stderr_simbot_level", JStr("INFO")),
      ("stderr_libraries_level", JStr("WARNING"))])),
    ("defaults", JObj([
      ("command_prefix", JStr("/")),
      ("status_message", JStr("bot is running!"))])),
    ("error_handling", JObj([
      ("automatic_restart_after_crash", JBool(true)),
      ("force_message_bot_owners_on_error", JBool(true))]))
  ])

  /**
   * What merge_default(config, template) leaves in config, or the TypeError it
   * raises. The merge works through the template's entries in order.
   */
  function Merged(config: Json, template: Json): (r: Result<Json>)
    requires template.JObj?
    ensures r.Ok? ==> r.value.JObj?
    ensures r.Err? ==> r.error == TypeError(EXPECTING_A_DICT)
    ensures !config.JObj? ==> r.Err?
    decreases template, |template.members| + 1
  {
    if !config.JObj? then Err(TypeError(EXPECTING_A_DICT))
    else
      match MergeMembers(config.members, template, |template.members|)
      case Err(e) => Err(e)
      case Ok(ms) => Ok(JObj(ms))
  }

  /** The dict entries after the loop of merge_default has handled the first n template entries. */
  function MergeMembers(cfg: seq<Member>, template: Json, n: nat): (r: Result<seq<Member>>)
    requires template.JObj? && n <= |template.members|
    ensures r.Err? ==> r.error == TypeError(EXPECTING_A_DICT)
    decreases template, n
  {
    if n == 0 then Ok(cfg)
    else
      match MergeMembers(cfg, template, n - 1)
      case Err(e) => Err(e)
      case Ok(acc) =>
        var (k, v) := template.members[n - 1];
        if k !in Keys(acc) then Ok(acc + [(k, v)])
        else if v.JObj? then
          match Merged(Get(acc, k), v)
          case Err(e) => Err(e)
          case Ok(sub) => Ok(Put(acc, k, sub))
        else Ok(acc)
  }

  /** merge_default, as the loop the source runs: returns the merged dict or the TypeError raised. */
  method MergeDefault(config: Json, template: Json) returns (r: Result<Json>)
    requires template.JObj?
    ensures r == Merged(config, template)
    decreases template
  {
    if !config.JObj? {
      return Err(TypeError(EXPECTING_A_DICT));
    }
    var members := config.members;
    var i := 0;
    while i < |template.members|
      invariant 0 <= i <= |template.members|
      invariant MergeMembers(config.members, template, i) == Ok(members)
    {
      var (k, v) := template.members[i];
      if k !in Keys(members) {
        members := members + [(k, v)];
      } else if v.JObj? {
        var sub := MergeDefault(Get(members, k), v);
        if sub.Err? {
          MergeMembersFailed(config.members, template, i + 1, |template.members|);
          return Err(sub.error);
        }
        members := Put(members, k, sub.value);
      }
      i := i + 1;
    }
    return Ok(JObj(members));
  }

  /** Once one template entry has raised, so has the whole merge. */
  lemma {:induction false} MergeMembersFailed(cfg: seq<Member>, template: Json, n: nat, m: nat)
    requires template.JObj? && n <= m <= |template.members|
    requires MergeMembers(cfg, template, n).Err?
    ensures MergeMembers(cfg, template, m).Err?
    decreases m - n
  {
    if n < m {
      MergeMembersFailed(cfg, template, n + 1, m);
    }
  }

  // ---------------------------------------------------------------------------
  // What the merge does, key by key
  // ---------------------------------------------------------------------------

  /** The keys of ks that `have` lacks, in the order of ks. */
  ghost function NewKeys(have: seq<string>, ks: seq<string>): seq<string>
    decreases |ks|
  {
    if ks == [] then []
    else NewKeys(have, ks[..|ks| - 1]) + (if ks[|ks| - 1] in have then [] else [ks[|ks| - 1]])
  }

  lemma {:induction false} NewKeysMembers(have: seq<string>, ks: seq<string>)
    ensures forall x :: x in NewKeys(have, ks) <==> x in ks && x !in have
    decreases |ks|
  {
    if ks != [] {
      NewKeysMembers(have, ks[..|ks| - 1]);
      assert ks == ks[..|ks| - 1] + [ks[|ks| - 1]];
    }
  }

  lemma {:induction false} NewKeysDistinct(have: seq<string>, ks: seq<string>)
    requires Distinct(have) && Distinct(ks)
    ensures Distinct(have + NewKeys(have, ks))
    decreases |ks|
  {
    if ks != [] {
      var front := ks[..|ks| - 1];
      NewKeysDistinct(have, front);
      NewKeysMembers(have, front);
      var x := ks[|ks| - 1];
      assert x !in front;
      assert have + NewKeys(have, ks) == (have + NewKeys(have, front)) + (if x in have then [] else [x]);
    }
  }

  lemma {:induction false} NewKeysCovered(have: seq<string>, ks: seq<string>)
    requires forall x :: x in ks ==> x in have
    ensures NewKeys(have, ks) == []
    decreases |ks|
  {
    if ks != [] {
      var front := ks[..|ks| - 1];
      forall x | x in front
        ensures x in have
      {
        var i :| 0 <= i < |front| && front[i] == x;
        assert ks[i] == x;
      }
      NewKeysCovered(have, front);
      assert ks[|ks| - 1] in ks;
    }
  }

  lemma {:induction false} NewKeysDisjoint(have: seq<string>, ks: seq<string>)
    requires forall x :: x in ks ==> x !in have
    ensures NewKeys(have, ks) == ks
    decreases |ks|
  {
    if ks != [] {
      var front := ks[..|ks| - 1];
      forall x | x in front
        ensures x !in have
      {
        var i :| 0 <= i < |front| && front[i] == x;
        assert ks[i] == x;
      }
      NewKeysDisjoint(have, front);
      assert ks[|ks| - 1] in ks;
      assert ks == front + [ks[|ks| - 1]];
    }
  }

  /** Every template entry whose value is a dict and whose key the config has merges without error. */
  ghost predicate SubMergesOk(cfg: seq<Member>, template: Json, n: nat)
    requires template.JObj? && n <= |template.members|
  {
    forall j :: 0 <= j < n && template.members[j].1.JObj? && template.members[j].0 in Keys(cfg) ==>
      Merged(Get(cfg, template.members[j].0), template.members[j].1).Ok?
  }

  /** The value the merge leaves under key k, a key of the template whose value is tv. */
  ghost function MergedValue(cfg: seq<Member>, k: string, tv: Json): Json
    requires k in Keys(cfg) && tv.JObj? ==> Merged(Get(cfg, k), tv).Ok?
  {
    if k !in Keys(cfg) then tv
    else if tv.JObj? then Merged(Get(cfg, k), tv).value
    else Get(cfg, k)
  }

  /**
   * acc is what the merge loop holds after the first n template entries: the
   * config's keys in their order, then the missing template keys in template
   * order; a key the template lacks keeps its value.
   */
  ghost predicate MergedPrefix(cfg: seq<Member>, template: Json, n: nat, acc: seq<Member>)
    requires template.JObj? && n <= |template.members|
  {
    var ts := template.members;
    && SubMergesOk(cfg, template, n)
    && Keys(acc) == Keys(cfg) + NewKeys(Keys(cfg), Keys(ts)[..n])
    && (forall k :: k in Keys(cfg) && k !in Keys(ts)[..n] ==> k in Keys(acc) && Get(acc, k) == Get(cfg, k))
    && (forall j :: 0 <= j < n ==> ts[j].0 in Keys(acc) && Get(acc, ts[j].0) == MergedValue(cfg, ts[j].0, ts[j].1))
  }

  lemma {:induction false} MergeMembersSpec(cfg: seq<Member>, template: Json, n: nat)
    requires template.JObj? && n <= |template.members|
    requires Distinct(Keys(template.members)) && Distinct(Keys(cfg))
    ensures MergeMembers(cfg, template, n).Ok? <==> SubMergesOk(cfg, template, n)
    ensures MergeMembers(cfg, template, n).Ok? ==> MergedPrefix(cfg, template, n, MergeMembers(cfg, template, n).value)
    decreases n
  {
    if n == 0 {
      assert Keys(template.members)[..0] == [];
      assert Keys(cfg) + [] == Keys(cfg);
    } else {
      MergeMembersSpec(cfg, template, n - 1);
      var prev := MergeMembers(cfg, template, n - 1);
      if prev.Err? {
        SubMergesOkShrink(cfg, template, n);
      } else {
        var acc := prev.value;
        var (k, v) := template.members[n - 1];
        if k !in Keys(acc) {
          assert MergeMembers(cfg, template, n) == Ok(acc + [(k, v)]);
          StepAppend(cfg, template, n, acc);
        } else if v.JObj? {
          var m := Merged(Get(acc, k), v);
          if m.Ok? {
            assert MergeMembers(cfg, template, n) == Ok(Put(acc, k, m.value));
            StepPut(cfg, template, n, acc, m.value);
          } else {
            assert MergeMembers(cfg, template, n).Err?;
            StepFail(cfg, template, n, acc);
          }
        } else {
          assert MergeMembers(cfg, template, n) == Ok(acc);
          StepKeep(cfg, template, n, acc);
        }
      }
    }
  }

  /** A sub-merge that succeeds for the first n template entries succeeds for fewer. */
  lemma SubMergesOkShrink(cfg: seq<Member>, template: Json, n: nat)
    requires template.JObj? && 0 < n <= |template.members|
    ensures SubMergesOk(cfg, template, n) ==> SubMergesOk(cfg, template, n - 1)
  {
  }

  /** A failing sub-merge at entry n - 1 is the witness that not every sub-merge succeeds. */
  lemma StepFail(cfg: seq<Member>, template: Json, n: nat, acc: seq<Member>)
    requires template.JObj? && 0 < n <= |template.members|
    requires Distinct(Keys(template.members))
    requires MergedPrefix(cfg, template, n - 1, acc)
    requires template.members[n - 1].0 in Keys(acc) && template.members[n - 1].1.JObj?
    requires Merged(Get(acc, template.members[n - 1].0), template.members[n - 1].1).Err?
    ensures !SubMergesOk(cfg, template, n)
  {
    StepFacts(cfg, template, n, acc);
  }

  /** What every step of the merge loop may rely on about the entry it handles. */
  lemma StepFacts(cfg: seq<Member>, template: Json, n: nat, acc: seq<Member>)
    requires template.JObj? && 0 < n <= |template.members|
    requires Distinct(Keys(template.members))
    requires MergedPrefix(cfg, template, n - 1, acc)
    ensures var k := template.members[n - 1].0;
      && Keys(template.members)[..n] == Keys(template.members)[..n - 1] + [k]
      && k !in Keys(template.members)[..n - 1]
      && (forall j :: 0 <= j < n - 1 ==> template.members[j].0 != k)
      && NewKeys(Keys(cfg), Keys(template.members)[..n]) ==
           NewKeys(Keys(cfg), Keys(template.members)[..n - 1]) + (if k in Keys(cfg) then [] else [k])
      && (k in Keys(acc) <==> k in Keys(cfg))
      && (k in Keys(acc) ==> Get(acc, k) == Get(cfg, k))
  {
    var ts := template.members;
    var k := ts[n - 1].0;
    assert Keys(ts)[n - 1] == k;
    assert Keys(ts)[..n] == Keys(ts)[..n - 1] + [k];
    assert Keys(ts)[..n][..n - 1] == Keys(ts)[..n - 1];
    forall j | 0 <= j < n - 1
      ensures ts[j].0 != k
    {
      assert Keys(ts)[j] == ts[j].0;
    }
    assert k !in Keys(ts)[..n - 1];
    NewKeysMembers(Keys(cfg), Keys(ts)[..n - 1]);
  }

  lemma StepAppend(cfg: seq<Member>, template: Json, n: nat, acc: seq<Member>)
    requires template.JObj? && 0 < n <= |template.members|
    requires Distinct(Keys(template.members))
    requires MergedPrefix(cfg, template, n - 1, acc)
    requires template.members[n - 1].0 !in Keys(acc)
    ensures MergedPrefix(cfg, template, n, acc + [template.members[n - 1]])
  {
    StepAppendKeys(cfg, template, n, acc);
    StepAppendKept(cfg, template, n, acc);
    StepAppendTemplate(cfg, template, n, acc);
  }

  lemma StepAppendKeys(cfg: seq<Member>, template: Json, n: nat, acc: seq<Member>)
    requires template.JObj? && 0 < n <= |template.members|
    requires Distinct(Keys(template.members))
    requires MergedPrefix(cfg, template, n - 1, acc)
    requires template.members[n - 1].0 !in Keys(acc)
    ensures Keys(acc + [template.members[n - 1]]) ==
      Keys(cfg) + NewKeys(Keys(cfg), Keys(template.members)[..n])
  {
    var ts := template.members;
    var (k, v) := ts[n - 1];
    StepFacts(cfg, template, n, acc);
    KeysAppend(acc, (k, v));
    assert k !in Keys(cfg);
  }

  lemma StepAppendKept(cfg: seq<Member>, template: Json, n: nat, acc: seq<Member>)
    requires template.JObj? && 0 < n <= |template.members|
    requires Distinct(Keys(template.members))
    requires MergedPrefix(cfg, template, n - 1, acc)
    requires template.members[n - 1].0 !in Keys(acc)
    ensures var acc' := acc + [template.members[n - 1]];
      forall k' :: k' in Keys(cfg) && k' !in Keys(template.members)[..n] ==>
        k' in Keys(acc') && Get(acc', k') == Get(cfg, k')
  {
    var ts := template.members;
    var (k, v) := ts[n - 1];
    var acc' := acc + [(k, v)];
    StepFacts(cfg, template, n, acc);
    GetAppend(acc, k, v);
    forall k' | k' in Keys(cfg) && k' !in Keys(ts)[..n]
      ensures k' in Keys(acc') && Get(acc', k') == Get(cfg, k')
    {
      assert k' !in Keys(ts)[..n - 1];
    }
  }

  lemma StepAppendSubMerges(cfg: seq<Member>, template: Json, n: nat, acc: seq<Member>)
    requires template.JObj? && 0 < n <= |template.members|
    requires Distinct(Keys(template.members))
    requires MergedPrefix(cfg, template, n - 1, acc)
    requires template.members[n - 1].0 !in Keys(acc)
    ensures SubMergesOk(cfg, template, n)
  {
    var ts := template.members;
    StepFacts(cfg, template, n, acc);
    forall j | 0 <= j < n && ts[j].1.JObj? && ts[j].0 in Keys(cfg)
      ensures Merged(Get(cfg, ts[j].0), ts[j].1).Ok?
    {
      assert j < n - 1;
    }
  }

  lemma StepAppendTemplate(cfg: seq<Member>, template: Json, n: nat, acc: seq<Member>)
    requires template.JObj? && 0 < n <= |template.members|
    requires Distinct(Keys(template.members))
    requires MergedPrefix(cfg, template, n - 1, acc)
    requires template.members[n - 1].0 !in Keys(acc)
    ensures SubMergesOk(cfg, template, n)
    ensures var acc' := acc + [template.members[n - 1]];
      forall j :: 0 <= j < n ==>
        template.members[j].0 in Keys(acc') &&
        Get(acc', template.members[j].0) == MergedValue(cfg, template.members[j].0, template.members[j].1)
  {
    var ts := template.members;
    var (k, v) := ts[n - 1];
    var acc' := acc + [(k, v)];
    StepAppendSubMerges(cfg, template, n, acc);
    StepFacts(cfg, template, n, acc);
    GetAppend(acc, k, v);
    forall j | 0 <= j < n
      ensures ts[j].0 in Keys(acc') && Get(acc', ts[j].0) == MergedValue(cfg, ts[j].0, ts[j].1)
    {
      if j < n - 1 {
        assert ts[j].0 in Keys(acc) && Get(acc', ts[j].0) == Get(acc, ts[j].0);
      } else {
        assert ts[j].0 == k && k !in Keys(cfg);
      }
    }
  }

  lemma StepPut(cfg: seq<Member>, template: Json, n: nat, acc: seq<Member>, sub: Json)
    requires template.JObj? && 0 < n <= |template.members|
    requires Distinct(Keys(template.members))
    requires MergedPrefix(cfg, template, n - 1, acc)
    requires template.members[n - 1].0 in Keys(acc) && template.members[n - 1].1.JObj?
    requires Merged(Get(acc, template.members[n - 1].0), template.members[n - 1].1) == Ok(sub)
    ensures MergedPrefix(cfg, template, n, Put(acc, template.members[n - 1].0, sub))
  {
    var (k, v) := template.members[n - 1];
    StepFacts(cfg, template, n, acc);
    GetPut(acc, k, sub);
  }

  lemma StepKeep(cfg: seq<Member>, template: Json, n: nat, acc: seq<Member>)
    requires template.JObj? && 0 < n <= |template.members|
    requires Distinct(Keys(template.members))
    requires MergedPrefix(cfg, template, n - 1, acc)
    requires template.members[n - 1].0 in Keys(acc) && !template.members[n - 1].1.JObj?
    ensures MergedPrefix(cfg, template, n, acc)
  {
    StepFacts(cfg, template, n, acc);
  }

  /** Merged, key by key: when it succeeds, what the merged dict holds. */
  lemma MergedSpec(config: Json, template: Json)
    requires config.JObj? && template.JObj?
    requires Distinct(Keys(template.members)) && Distinct(Keys(config.members))
    ensures Merged(config, template).Ok? <==> SubMergesOk(config.members, template, |template.members|)
    ensures Merged(config, template).Ok? ==>
      MergedPrefix(config.members, template, |template.members|, Merged(config, template).value.members)
    ensures Merged(config, template).Ok? ==>
      Keys(Merged(config, template).value.members) ==
        Keys(config.members) + NewKeys(Keys(config.members), Keys(template.members))
  {
    MergeMembersSpec(config.members, template, |template.members|);
    assert Keys(template.members)[..|template.members|] == Keys(template.members);
  }

  /** The template key at position j: the lookup of that key finds that entry. */
  lemma TemplateEntry(template: Json, j: nat)
    requires template.JObj? && Distinct(Keys(template.members)) && j < |template.members|
    ensures template.members[j].0 in Keys(template.members)
    ensures Get(template.members, template.members[j].0) == template.members[j].1
    ensures Find(Keys(template.members), template.members[j].0) == j
  {
    GetAt(template.members, j);
    assert Keys(template.members)[j] == template.members[j].0;
    FindDistinct(Keys(template.members), j);
  }

  /**
   * merge_default key by key: a key the template has is merged (dict under
   * dict), kept (the config already has it) or added (copied from the
   * template); a key only the config has keeps its value; no other key appears.
   */
  lemma MergedGet(config: Json, template: Json, k: string)
    requires WellFormed(config) && WellFormed(template) && template.JObj?
    requires Merged(config, template).Ok?
    ensures config.JObj?
    ensures var r := Merged(config, template).value.members;
      k in Keys(r) <==> k in Keys(config.members) || k in Keys(template.members)
    ensures var r := Merged(config, template).value.members;
      var cm := config.members;
      var ts := template.members;
      && (k in Keys(ts) && k in Keys(cm) && Get(ts, k).JObj? ==>
            Merged(Get(cm, k), Get(ts, k)).Ok? && Get(r, k) == Merged(Get(cm, k), Get(ts, k)).value)
      && (k in Keys(ts) && k in Keys(cm) && !Get(ts, k).JObj? ==> Get(r, k) == Get(cm, k))
      && (k in Keys(ts) && k !in Keys(cm) ==> Get(r, k) == Get(ts, k))
      && (k !in Keys(ts) && k in Keys(cm) ==> Get(r, k) == Get(cm, k))
  {
    var cm := config.members;
    var ts := template.members;
    MergedSpec(config, template);
    NewKeysMembers(Keys(cm), Keys(ts));
    assert Keys(ts)[..|ts|] == Keys(ts);
    if k in Keys(ts) {
      var j := Find(Keys(ts), k);
      TemplateEntry(template, j);
    }
  }

  /** The merged document again has unique keys and no dict inside a list. */
  lemma MergedWellFormed(config: Json, template: Json)
    requires WellFormed(config) && WellFormed(template) && template.JObj?
    requires Merged(config, template).Ok?
    ensures WellFormed(Merged(config, template).value)
    decreases template
  {
    var r := Merged(config, template).value.members;
    var cm := config.members;
    var ts := template.members;
    MergedSpec(config, template);
    NewKeysDistinct(Keys(cm), Keys(ts));
    forall i | 0 <= i < |r|
      ensures WellFormed(r[i].1)
    {
      var k := r[i].0;
      GetAt(r, i);
      MergedGet(config, template, k);
      if k in Keys(ts) {
        var j := Find(Keys(ts), k);
        TemplateEntry(template, j);
        if k in Keys(cm) {
          WellFormedGet(cm, k);
          if ts[j].1.JObj? {
            MergedWellFormed(Get(cm, k), ts[j].1);
          }
        }
      } else {
        WellFormedGet(cm, k);
      }
    }
  }

  /** Completeness: every key path of the template is present after the merge, at every depth. */
  lemma MergedHasTemplatePaths(config: Json, template: Json, p: seq<string>)
    requires WellFormed(config) && WellFormed(template) && template.JObj?
    requires Merged(config, template).Ok?
    requires HasPath(template, p)
    ensures HasPath(Merged(config, template).value, p)
    decreases template
  {
    if p != [] {
      var r := Merged(config, template).value;
      var cm := config.members;
      var ts := template.members;
      var k, q := p[0], p[1..];
      assert p == [k] + q;
      HasPathCons(template, k, q);
      HasPathCons(r, k, q);
      MergedGet(config, template, k);
      var j := Find(Keys(ts), k);
      TemplateEntry(template, j);
      if k in Keys(cm) && ts[j].1.JObj? {
        WellFormedGet(cm, k);
        MergedHasTemplatePaths(Get(cm, k), ts[j].1, q);
      }
    }
  }

  /**
   * Nothing is overwritten: every key path of the config survives the merge,
   * and unless the template holds a dict at that path the value there is the
   * config's own. This covers keys the template lacks as well as keys whose
   * template value is not a dict.
   */
  lemma MergedKeepsValues(config: Json, template: Json, p: seq<string>)
    requires WellFormed(config) && WellFormed(template) && template.JObj?
    requires Merged(config, template).Ok?
    requires HasPath(config, p)
    ensures HasPath(Merged(config, template).value, p)
    ensures !(HasPath(template, p) && At(template, p).JObj?) ==>
      At(Merged(config, template).value, p) == At(config, p)
    decreases template
  {
    if p != [] {
      var r := Merged(config, template).value;
      var cm := config.members;
      var ts := template.members;
      var k, q := p[0], p[1..];
      assert p == [k] + q;
      HasPathCons(config, k, q);
      HasPathCons(template, k, q);
      HasPathCons(r, k, q);
      MergedGet(config, template, k);
      if k in Keys(ts) {
        var j := Find(Keys(ts), k);
        TemplateEntry(template, j);
        if ts[j].1.JObj? {
          WellFormedGet(cm, k);
          MergedKeepsValues(Get(cm, k), ts[j].1, q);
        }
      }
    }
  }

  /** The merge invents nothing: each key path of the result comes from the config or the template. */
  lemma MergedPathsFromInputs(config: Json, template: Json, p: seq<string>)
    requires WellFormed(config) && WellFormed(template) && template.JObj?
    requires Merged(config, template).Ok?
    requires HasPath(Merged(config, template).value, p)
    ensures HasPath(config, p) || HasPath(template, p)
    decreases template
  {
    if p != [] {
      var r := Merged(config, template).value;
      var cm := config.members;
      var ts := template.members;
      var k, q := p[0], p[1..];
      assert p == [k] + q;
      HasPathCons(config, k, q);
      HasPathCons(template, k, q);
      HasPathCons(r, k, q);
      MergedGet(config, template, k);
      if k in Keys(ts) {
        var j := Find(Keys(ts), k);
        TemplateEntry(template, j);
        if k in Keys(cm) && ts[j].1.JObj? {
          WellFormedGet(cm, k);
          MergedPathsFromInputs(Get(cm, k), ts[j].1, q);
        }
      }
    }
  }

  /**
   * merge_default raises TypeError when the config, or a config value at a
   * path where the template holds a dict, is not a dict.
   */
  lemma MergedRejects(config: Json, template: Json, p: seq<string>)
    requires WellFormed(config) && WellFormed(template) && template.JObj?
    requires HasPath(template, p) && At(template, p).JObj?
    requires HasPath(config, p) && !At(config, p).JObj?
    ensures Merged(config, template) == Err(TypeError(EXPECTING_A_DICT))
    decreases template
  {
    if p != [] {
      var cm := config.members;
      var ts := template.members;
      var k, q := p[0], p[1..];
      assert p == [k] + q;
      HasPathCons(config, k, q);
      HasPathCons(template, k, q);
      var j := Find(Keys(ts), k);
      TemplateEntry(template, j);
      WellFormedGet(cm, k);
      assert ts[j].1.JObj?;
      MergedRejects(Get(cm, k), ts[j].1, q);
      MergedSpec(config, template);
      assert !SubMergesOk(cm, template, |ts|);
    }
  }

  /** Conversely, when every value at a path where the template holds a dict is a dict, nothing is raised. */
  lemma MergedAccepts(config: Json, template: Json)
    requires WellFormed(config) && WellFormed(template) && template.JObj?
    requires forall p :: HasPath(template, p) && At(template, p).JObj? && HasPath(config, p) ==> At(config, p).JObj?
    ensures Merged(config, template).Ok?
    decreases template
  {
    assert HasPath(template, []) && HasPath(config, []);
    var cm := config.members;
    var ts := template.members;
    forall j | 0 <= j < |ts| && ts[j].1.JObj? && ts[j].0 in Keys(cm)
      ensures Merged(Get(cm, ts[j].0), ts[j].1).Ok?
    {
      var k := ts[j].0;
      TemplateEntry(template, j);
      WellFormedGet(cm, k);
      forall q | HasPath(ts[j].1, q) && At(ts[j].1, q).JObj? && HasPath(Get(cm, k), q)
        ensures At(Get(cm, k), q).JObj?
      {
        HasPathCons(config, k, q);
        HasPathCons(template, k, q);
      }
      MergedAccepts(Get(cm, k), ts[j].1);
    }
    MergedSpec(config, template);
  }

  /** Merging a template into itself changes nothing. */
  lemma SelfMerge(template: Json)
    requires WellFormed(template) && template.JObj?
    ensures Merged(template, template) == Ok(template)
    decreases template
  {
    var ts := template.members;
    forall j | 0 <= j < |ts| && ts[j].1.JObj? && ts[j].0 in Keys(ts)
      ensures Merged(Get(ts, ts[j].0), ts[j].1) == Ok(ts[j].1)
    {
      TemplateEntry(template, j);
      SelfMerge(ts[j].1);
    }
    MergedSpec(template, template);
    var r := Merged(template, template).value;
    NewKeysCovered(Keys(ts), Keys(ts));
    assert Keys(ts) + [] == Keys(ts);
    forall k | k in Keys(ts)
      ensures k in Keys(r.members) && Get(ts, k) == Get(r.members, k)
    {
      MergedGet(template, template, k);
    }
    EqualByKeys(ts, r.members);
  }

  /** A dict with no entries is merged into an exact copy of the template. */
  lemma EmptyMerge(template: Json)
    requires WellFormed(template) && template.JObj?
    ensures Merged(JObj([]), template) == Ok(template)
  {
    var ts := template.members;
    MergedSpec(JObj([]), template);
    var r := Merged(JObj([]), template).value;
    NewKeysDisjoint([], Keys(ts));
    assert [] + Keys(ts) == Keys(ts);
    forall k | k in Keys(ts)
      ensures k in Keys(r.members) && Get(ts, k) == Get(r.members, k)
    {
      MergedGet(JObj([]), template, k);
    }
    EqualByKeys(ts, r.members);
  }

  /** Idempotence: merging the same template a second time changes nothing. */
  lemma MergeIdempotent(config: Json, template: Json)
    requires WellFormed(config) && WellFormed(template) && template.JObj?
    requires Merged(config, template).Ok?
    ensures Merged(Merged(config, template).value, template) == Merged(config, template)
    decreases template
  {
    var r := Merged(config, template).value;
    var cm := config.members;
    var ts := template.members;
    MergedWellFormed(config, template);
    forall j | 0 <= j < |ts| && ts[j].1.JObj?
      ensures ts[j].0 in Keys(r.members) && Merged(Get(r.members, ts[j].0), ts[j].1) == Ok(Get(r.members, ts[j].0))
    {
      var k := ts[j].0;
      TemplateEntry(template, j);
      MergedGet(config, template, k);
      if k in Keys(cm) {
        WellFormedGet(cm, k);
        MergeIdempotent(Get(cm, k), ts[j].1);
      } else {
        WellFormedGet(ts, k);
        SelfMerge(ts[j].1);
      }
    }
    MergedSpec(r, template);
    var r2 := Merged(r, template).value;
    forall x | x in Keys(ts)
      ensures x in Keys(r.members)
    {
      MergedGet(config, template, x);
    }
    NewKeysCovered(Keys(r.members), Keys(ts));
    assert Keys(r.members) + [] == Keys(r.members);
    forall k | k in Keys(r.members)
      ensures k in Keys(r2.members) && Get(r.members, k) == Get(r2.members, k)
    {
      MergedGet(r, template, k);
      if k in Keys(ts) {
        var j := Find(Keys(ts), k);
        TemplateEntry(template, j);
      }
    }
    EqualByKeys(r.members, r2.members);
  }
}
