/**
 * warn_extra_keys of src/simbot/simbot_bootstrap.py: the walk over a
 * configuration dict, in document order, that reports every key the template
 * does not know, descending only into keys whose template value is a dict.
 */
module ConfigWarnings {
  import opened Wrappers
  import opened ConfigTree
  import opened ConfigMerge

  /**
   * The outcome of the walk: the key paths reported, in order, and whether the
   * walk finished (false when it raised TypeError after reporting `paths`).
   */
  datatype Walk = Walk(paths: seq<seq<string>>, finished: bool)

  /** The key paths warn_extra_keys(config, template, keyList) reports. */
  function ExtraKeys(config: Json, template: Json, keyList: seq<string>): (w: Walk)
    requires template.JObj?
    ensures !config.JObj? ==> w == Walk([], false)
    decreases template, if config.JObj? then |config.members| + 1 else 0
  {
    if !config.JObj? then Walk([], false)
    else ExtraKeysFold(config.members, template, keyList, |config.members|)
  }

  /** The walk after the loop has handled the first n entries of the config dict. */
  function ExtraKeysFold(ms: seq<Member>, template: Json, keyList: seq<string>, n: nat): (w: Walk)
    requires template.JObj? && n <= |ms|
    decreases template, n
  {
    if n == 0 then Walk([], true)
    else
      var w := ExtraKeysFold(ms, template, keyList, n - 1);
      if !w.finished then w
      else
        var (k, v) := ms[n - 1];
        if k in Keys(template.members) then
          var tv := template.members[Find(Keys(template.members), k)].1;
          if tv.JObj? then
            var sub := ExtraKeys(v, tv, keyList + [k]);
            Walk(w.paths + sub.paths, sub.finished)
          else w
        else Walk(w.paths + [keyList + [k]], true)
  }

  /** One turn of the loop over the config dict, case by case. */
  lemma FoldStep(ms: seq<Member>, template: Json, keyList: seq<string>, i: nat)
    requires template.JObj? && i < |ms| && ExtraKeysFold(ms, template, keyList, i).finished
    ensures ms[i].0 !in Keys(template.members) ==>
      ExtraKeysFold(ms, template, keyList, i + 1) ==
        Walk(ExtraKeysFold(ms, template, keyList, i).paths + [keyList + [ms[i].0]], true)
    ensures ms[i].0 in Keys(template.members) && !Get(template.members, ms[i].0).JObj? ==>
      ExtraKeysFold(ms, template, keyList, i + 1) == ExtraKeysFold(ms, template, keyList, i)
    ensures ms[i].0 in Keys(template.members) && Get(template.members, ms[i].0).JObj? ==>
      var sub := ExtraKeys(ms[i].1, Get(template.members, ms[i].0), keyList + [ms[i].0]);
      ExtraKeysFold(ms, template, keyList, i + 1) ==
        Walk(ExtraKeysFold(ms, template, keyList, i).paths + sub.paths, sub.finished)
  {
  }

  /** The message issued for one extra key path. */
  function WarningText(path: seq<string>): (s: string)
    ensures |s| >= |"Extra key "| + |" in configuration file."|
    ensures s[..|"Extra key "|] == "Extra key "
  {
    "Extra key " + Join(Quoted(path)) + " in configuration file."
  }

  /** Every key in double quotes. */
  function Quoted(path: seq<string>): (qs: seq<string>)
    ensures |qs| == |path|
    ensures forall i :: 0 <= i < |path| ==> qs[i] == "\"" + path[i] + "\""
  {
    seq(|path|, i requires 0 <= i < |path| => "\"" + path[i] + "\"")
  }

  /** ":".join(parts). */
  function Join(parts: seq<string>): string
    decreases |parts|
  {
    if parts == [] then ""
    else if |parts| == 1 then parts[0]
    else parts[0] + ":" + Join(parts[1..])
  }

  /** The message for one unknown top-level key: the key in double quotes between the fixed texts. */
  lemma WarningTextOneKey()
    ensures WarningText(["colour"]) == "Extra key " + "\"colour\"" + " in configuration file."
  {
    assert Quoted(["colour"]) == ["\"colour\""] by {
      assert "\"" + "colour" + "\"" == "\"colour\"";
    }
  }

  /** The messages for a list of key paths, one each, in the same order. */
  function Warnings(paths: seq<seq<string>>): (ws: seq<string>)
    ensures |ws| == |paths|
    ensures forall i :: 0 <= i < |paths| ==> ws[i] == WarningText(paths[i])
  {
    seq(|paths|, i requires 0 <= i < |paths| => WarningText(paths[i]))
  }

  lemma WarningsAppend(a: seq<seq<string>>, b: seq<seq<string>>)
    ensures Warnings(a + b) == Warnings(a) + Warnings(b)
  {
  }

  // ---------------------------------------------------------------------------
  // Which paths are extra
  // ---------------------------------------------------------------------------

  /**
   * q is an extra key path of config: it leads to a value of config, every key
   * before the last leads to a dict in the template too, and that template dict
   * lacks the last key.
   */
  ghost predicate IsExtraPath(config: Json, template: Json, q: seq<string>) {
    && |q| > 0
    && HasPath(config, q)
    && HasPath(template, q[..|q| - 1])
    && At(template, q[..|q| - 1]).JObj?
    && q[|q| - 1] !in Keys(At(template, q[..|q| - 1]).members)
  }

  /** p is an extra key path of config reported under the key prefix keyList. */
  ghost predicate ReportedAs(config: Json, template: Json, keyList: seq<string>, p: seq<string>) {
    |p| > |keyList| && p[..|keyList|] == keyList && IsExtraPath(config, template, p[|keyList|..])
  }

  /** An extra path is a key of the dict followed by an extra path of its value, or a key the template lacks. */
  lemma ExtraPathCons(config: Json, template: Json, k: string, q: seq<string>)
    requires config.JObj? && template.JObj?
    ensures IsExtraPath(config, template, [k] + q) <==>
      k in Keys(config.members) &&
      if k in Keys(template.members) then IsExtraPath(Get(config.members, k), Get(template.members, k), q)
      else q == []
  {
    var p := [k] + q;
    HasPathCons(config, k, q);
    if q == [] {
      assert p[..|p| - 1] == [];
      assert p[|p| - 1] == k;
    } else {
      var q' := q[..|q| - 1];
      assert p[..|p| - 1] == [k] + q';
      assert p[|p| - 1] == q[|q| - 1];
      HasPathCons(template, k, q');
    }
  }

  /** Only a template that is a dict has extra paths below it. */
  lemma ExtraPathTemplateDict(config: Json, template: Json, q: seq<string>)
    requires IsExtraPath(config, template, q)
    ensures template.JObj?
  {
    if |q| > 1 {
      HasPathCons(template, q[0], q[1..|q| - 1]);
      assert q[..|q| - 1] == [q[0]] + q[1..|q| - 1];
    }
  }

  /** Every reported path is an extra path of the config, even when the walk raises part way. */
  lemma {:induction false} ExtraKeysSound(config: Json, template: Json, keyList: seq<string>)
    requires WellFormed(config) && template.JObj?
    ensures forall p :: p in ExtraKeys(config, template, keyList).paths ==> ReportedAs(config, template, keyList, p)
    decreases template, if config.JObj? then |config.members| + 1 else 0
  {
    if config.JObj? {
      ExtraKeysFoldSound(config.members, template, keyList, |config.members|);
    }
  }

  lemma {:induction false} ExtraKeysFoldSound(ms: seq<Member>, template: Json, keyList: seq<string>, n: nat)
    requires WellFormed(JObj(ms)) && template.JObj? && n <= |ms|
    ensures forall p :: p in ExtraKeysFold(ms, template, keyList, n).paths ==>
      ReportedAs(JObj(ms), template, keyList, p) && p[|keyList|] in Keys(ms)[..n]
    decreases template, n
  {
    if n > 0 {
      ExtraKeysFoldSound(ms, template, keyList, n - 1);
      var w := ExtraKeysFold(ms, template, keyList, n - 1);
      assert Keys(ms)[..n] == Keys(ms)[..n - 1] + [ms[n - 1].0];
      if w.finished {
        var (k, v) := ms[n - 1];
        GetAt(ms, n - 1);
        if k in Keys(template.members) {
          var tv := template.members[Find(Keys(template.members), k)].1;
          if tv.JObj? {
            ExtraKeysSound(v, tv, keyList + [k]);
            forall p | p in ExtraKeys(v, tv, keyList + [k]).paths
              ensures ReportedAs(JObj(ms), template, keyList, p) && p[|keyList|] == k
            {
              var q := p[|keyList| + 1..];
              assert p[..|keyList| + 1] == keyList + [k];
              assert p[|keyList|..] == [k] + q;
              ExtraPathCons(JObj(ms), template, k, q);
            }
          }
        } else {
          var p := keyList + [k];
          assert p[..|keyList|] == keyList && p[|keyList|..] == [k] + [];
          ExtraPathCons(JObj(ms), template, k, []);
        }
      }
    }
  }

  /** Once the walk has raised, the later entries add nothing. */
  lemma {:induction false} ExtraKeysFoldStops(ms: seq<Member>, template: Json, keyList: seq<string>, n: nat, m: nat)
    requires template.JObj? && n <= m <= |ms|
    requires !ExtraKeysFold(ms, template, keyList, n).finished
    ensures ExtraKeysFold(ms, template, keyList, m) == ExtraKeysFold(ms, template, keyList, n)
    decreases m - n
  {
    if n < m {
      ExtraKeysFoldStops(ms, template, keyList, n, m - 1);
    }
  }

  /** A finished walk reports every extra path of the config. */
  lemma {:induction false} ExtraKeysComplete(config: Json, template: Json, keyList: seq<string>, q: seq<string>)
    requires WellFormed(config) && template.JObj?
    requires ExtraKeys(config, template, keyList).finished
    requires IsExtraPath(config, template, q)
    ensures keyList + q in ExtraKeys(config, template, keyList).paths
    decreases template, if config.JObj? then |config.members| + 1 else 0
  {
    if config.JObj? {
      assert q == [q[0]] + q[1..];
      HasPathCons(config, q[0], q[1..]);
      var i := Find(Keys(config.members), q[0]);
      assert Keys(config.members)[..|config.members|] == Keys(config.members);
      ExtraKeysFoldComplete(config.members, template, keyList, |config.members|, q);
    }
  }

  lemma {:induction false} ExtraKeysFoldComplete(ms: seq<Member>, template: Json, keyList: seq<string>, n: nat, q: seq<string>)
    requires WellFormed(JObj(ms)) && template.JObj? && n <= |ms|
    requires ExtraKeysFold(ms, template, keyList, n).finished
    requires IsExtraPath(JObj(ms), template, q) && q[0] in Keys(ms)[..n]
    ensures keyList + q in ExtraKeysFold(ms, template, keyList, n).paths
    decreases template, n
  {
    var (k, v) := ms[n - 1];
    assert Keys(ms)[..n] == Keys(ms)[..n - 1] + [k];
    var w := ExtraKeysFold(ms, template, keyList, n - 1);
    if q[0] == k {
      GetAt(ms, n - 1);
      assert q == [k] + q[1..];
      ExtraPathCons(JObj(ms), template, k, q[1..]);
      if k in Keys(template.members) {
        var tv := template.members[Find(Keys(template.members), k)].1;
        assert tv == Get(template.members, k);
        ExtraPathTemplateDict(v, tv, q[1..]);
        assert w.finished;
        ExtraKeysComplete(v, tv, keyList + [k], q[1..]);
        assert keyList + q == (keyList + [k]) + q[1..];
      } else {
        assert q == [k];
        assert w.finished;
      }
    } else {
      ExtraKeysFoldComplete(ms, template, keyList, n - 1, q);
    }
  }

  /** No key path is reported twice. */
  lemma {:induction false} ExtraKeysDistinct(config: Json, template: Json, keyList: seq<string>)
    requires WellFormed(config) && template.JObj?
    ensures Distinct(ExtraKeys(config, template, keyList).paths)
    decreases template, if config.JObj? then |config.members| + 1 else 0
  {
    if config.JObj? {
      ExtraKeysFoldDistinct(config.members, template, keyList, |config.members|);
    }
  }

  lemma {:induction false} ExtraKeysFoldDistinct(ms: seq<Member>, template: Json, keyList: seq<string>, n: nat)
    requires WellFormed(JObj(ms)) && template.JObj? && n <= |ms|
    ensures Distinct(ExtraKeysFold(ms, template, keyList, n).paths)
    decreases template, n
  {
    if n > 0 {
      ExtraKeysFoldDistinct(ms, template, keyList, n - 1);
      ExtraKeysFoldSound(ms, template, keyList, n - 1);
      var w := ExtraKeysFold(ms, template, keyList, n - 1);
      if w.finished {
        var (k, v) := ms[n - 1];
        assert k !in Keys(ms)[..n - 1] by {
          assert Keys(ms)[n - 1] == k;
          assert Distinct(Keys(ms));
        }
        if k in Keys(template.members) {
          var tv := template.members[Find(Keys(template.members), k)].1;
          if tv.JObj? {
            var sub := ExtraKeys(v, tv, keyList + [k]).paths;
            ExtraKeysDistinct(v, tv, keyList + [k]);
            ExtraKeysSound(v, tv, keyList + [k]);
            forall p | p in sub
              ensures p !in w.paths
            {
              assert p[..|keyList| + 1] == keyList + [k];
              assert p[|keyList|] == k;
            }
            DistinctAppend(w.paths, sub);
          }
        } else {
          DistinctAppend(w.paths, [keyList + [k]]);
        }
      }
    }
  }

  lemma DistinctAppend<T>(a: seq<T>, b: seq<T>)
    requires Distinct(a) && Distinct(b)
    requires forall x :: x in b ==> x !in a
    ensures Distinct(a + b)
  {
    forall i, j | 0 <= i < j < |a + b|
      ensures (a + b)[i] != (a + b)[j]
    {
      if j < |a| {
        assert (a + b)[i] == a[i] && (a + b)[j] == a[j];
      } else if i < |a| {
        assert (a + b)[i] == a[i] && (a + b)[j] == b[j - |a|];
        assert b[j - |a|] in b;
      } else {
        assert (a + b)[i] == b[i - |a|] && (a + b)[j] == b[j - |a|];
      }
    }
  }

  /** Every entry among the first n whose template value is a dict was walked without raising. */
  ghost predicate SubWalksFinished(ms: seq<Member>, template: Json, keyList: seq<string>, n: nat)
    requires template.JObj? && n <= |ms|
  {
    forall j :: 0 <= j < n && ms[j].0 in Keys(template.members) && Get(template.members, ms[j].0).JObj? ==>
      ExtraKeys(ms[j].1, Get(template.members, ms[j].0), keyList + [ms[j].0]).finished
  }

  lemma {:induction false} ExtraKeysFoldFinished(ms: seq<Member>, template: Json, keyList: seq<string>, n: nat)
    requires template.JObj? && n <= |ms|
    ensures ExtraKeysFold(ms, template, keyList, n).finished <==> SubWalksFinished(ms, template, keyList, n)
    decreases n
  {
    if n > 0 {
      ExtraKeysFoldFinished(ms, template, keyList, n - 1);
      if !ExtraKeysFold(ms, template, keyList, n - 1).finished {
        ExtraKeysFoldStops(ms, template, keyList, n - 1, n);
      }
    }
  }

  /**
   * warn_extra_keys raises exactly when merge_default raises on the same dict:
   * in particular it never raises on a dict that merge_default has completed.
   */
  lemma {:induction false} ExtraKeysFinished(config: Json, template: Json, keyList: seq<string>)
    requires WellFormed(config) && WellFormed(template) && template.JObj?
    ensures ExtraKeys(config, template, keyList).finished <==> Merged(config, template).Ok?
    decreases template
  {
    if config.JObj? {
      var cm := config.members;
      var ts := template.members;
      ExtraKeysFoldFinished(cm, template, keyList, |cm|);
      MergedSpec(config, template);
      forall j | 0 <= j < |cm|
        ensures cm[j].0 in Keys(cm)
      {
        assert Keys(cm)[j] == cm[j].0;
      }
      forall j | 0 <= j < |cm| && cm[j].0 in Keys(ts) && Get(ts, cm[j].0).JObj?
        ensures ExtraKeys(cm[j].1, Get(ts, cm[j].0), keyList + [cm[j].0]).finished <==>
          Merged(Get(cm, cm[j].0), Get(ts, cm[j].0)).Ok?
      {
        var k := cm[j].0;
        var i := Find(Keys(ts), k);
        TemplateEntry(template, i);
        GetAt(cm, j);
        ExtraKeysFinished(cm[j].1, ts[i].1, keyList + [k]);
      }
      forall i | 0 <= i < |ts| && ts[i].1.JObj? && ts[i].0 in Keys(cm)
        ensures ts[i].0 in Keys(ts) && Get(ts, ts[i].0) == ts[i].1
        ensures var j := Find(Keys(cm), ts[i].0); cm[j].0 == ts[i].0 && Get(cm, ts[i].0) == cm[j].1
      {
        TemplateEntry(template, i);
      }
      if SubMergesOk(cm, template, |ts|) {
        assert SubWalksFinished(cm, template, keyList, |cm|) by {
          forall j | 0 <= j < |cm| && cm[j].0 in Keys(ts) && Get(ts, cm[j].0).JObj?
            ensures ExtraKeys(cm[j].1, Get(ts, cm[j].0), keyList + [cm[j].0]).finished
          {
            var i := Find(Keys(ts), cm[j].0);
            TemplateEntry(template, i);
          }
        }
      }
      if SubWalksFinished(cm, template, keyList, |cm|) {
        assert SubMergesOk(cm, template, |ts|) by {
          forall i | 0 <= i < |ts| && ts[i].1.JObj? && ts[i].0 in Keys(cm)
            ensures Merged(Get(cm, ts[i].0), ts[i].1).Ok?
          {
            var j := Find(Keys(cm), ts[i].0);
            assert Keys(cm)[j] == cm[j].0;
          }
        }
      }
    }
  }

  /** merge_default adds no extra paths and loses none: the merged dict has exactly the extra paths of the original. */
  lemma MergedKeepsExtraPaths(config: Json, template: Json, q: seq<string>)
    requires WellFormed(config) && WellFormed(template) && template.JObj?
    requires Merged(config, template).Ok?
    ensures IsExtraPath(Merged(config, template).value, template, q) <==> IsExtraPath(config, template, q)
  {
    var r := Merged(config, template).value;
    if |q| > 0 {
      var init, last := q[..|q| - 1], q[|q| - 1];
      assert q == init + [last];
      HasPathSnoc(template, init, last);
      if HasPath(config, q) {
        MergedKeepsValues(config, template, q);
      }
      if HasPath(r, q) {
        MergedPathsFromInputs(config, template, q);
      }
    }
  }

  /** Two keys reported in a dict the template lacks, one of them nested. */
  lemma ExtraKeysExample()
    ensures ExtraKeys(
      JObj([("paths", JObj([("logfile", JStr("x.log")), ("cache", JStr("c"))])), ("colour", JNum(3))]),
      DefaultConfig, []) == Walk([["paths", "cache"], ["colour"]], true)
  {
    var inner := [("logfile", JStr("x.log")), ("cache", JStr("c"))];
    var ms := [("paths", JObj(inner)), ("colour", JNum(3))];
    var ts := DefaultConfig.members;
    assert Keys(ts)[2] == "paths" && Keys(ts)[..2] == ["bot_login_token", "bot_owner_id"];
    FindUnique(Keys(ts), "paths", 2);
    ExtraKeysPathsExample(inner);
    assert [] + ["paths"] == ["paths"];
    assert ExtraKeysFold(ms, DefaultConfig, [], 1) == Walk([["paths", "cache"]], true);
    assert "colour" !in Keys(ts);
    assert [] + ["colour"] == ["colour"];
    assert ExtraKeysFold(ms, DefaultConfig, [], 2) == Walk([["paths", "cache"], ["colour"]], true);
  }

  /** The nested half of ExtraKeysExample: the paths section with one key too many. */
  lemma ExtraKeysPathsExample(inner: seq<Member>)
    requires inner == [("logfile", JStr("x.log")), ("cache", JStr("c"))]
    ensures DefaultConfig.members[2].1.JObj?
    ensures ExtraKeys(JObj(inner), DefaultConfig.members[2].1, ["paths"]) == Walk([["paths", "cache"]], true)
  {
    var pt := DefaultConfig.members[2].1;
    assert Keys(pt.members) == ["data_folder", "logfile"];
    assert Find(Keys(pt.members), "logfile") == 1;
    assert "cache" !in Keys(pt.members);
    assert ExtraKeysFold(inner, pt, ["paths"], 1) == Walk([], true);
    assert ["paths"] + ["cache"] == ["paths", "cache"];
    assert ExtraKeysFold(inner, pt, ["paths"], 2) == Walk([["paths", "cache"]], true);
  }

  // ---------------------------------------------------------------------------
  // Telling the messages apart
  // ---------------------------------------------------------------------------

  /** A key with no double quote in it. */
  predicate Unquoted(k: string) {
    forall i :: 0 <= i < |k| ==> k[i] != '\"'
  }

  /** Every key of the path is Unquoted. */
  predicate UnquotedPath(path: seq<string>) {
    forall i :: 0 <= i < |path| ==> Unquoted(path[i])
  }

  /** No key of any dict in the document holds a double quote. */
  predicate UnquotedKeys(j: Json) {
    match j
    case JObj(ms) => forall i :: 0 <= i < |ms| ==> Unquoted(ms[i].0) && UnquotedKeys(ms[i].1)
    case _ => true
  }

  /** The keys along a path of such a document hold no double quote either. */
  lemma {:induction false} HasPathUnquoted(j: Json, q: seq<string>)
    requires UnquotedKeys(j) && HasPath(j, q)
    ensures UnquotedPath(q)
    decreases |q|
  {
    if q != [] {
      var i := Find(Keys(j.members), q[0]);
      assert j.members[i].0 == q[0];
      HasPathUnquoted(Get(j.members, q[0]), q[1..]);
      forall n | 0 <= n < |q|
        ensures Unquoted(q[n])
      {
        if n > 0 {
          assert q[n] == q[1..][n - 1];
        }
      }
    }
  }

  /** The joined text starts with the first key in quotes, then a colon and the rest if there is more. */
  lemma JoinQuotedHead(path: seq<string>)
    requires |path| > 0
    ensures |path| == 1 ==> Join(Quoted(path)) == "\"" + path[0] + "\""
    ensures |path| > 1 ==> Join(Quoted(path)) == ("\"" + path[0] + "\"") + (":" + Join(Quoted(path[1..])))
  {
    assert Quoted(path)[1..] == Quoted(path[1..]);
  }

  /** A quoted key without quotes in it can be read back off the front of a text. */
  lemma QuotedPrefix(a: string, b: string, x: string, y: string)
    requires Unquoted(a) && Unquoted(b)
    requires ("\"" + a + "\"") + x == ("\"" + b + "\"") + y
    ensures a == b && x == y
  {
    var s := ("\"" + a + "\"") + x;
    var t := ("\"" + b + "\"") + y;
    assert s[|a| + 1] == '\"' && t[|b| + 1] == '\"';
    assert a == s[1..|a| + 1];
    assert b == t[1..|b| + 1];
    assert x == s[|a| + 2..];
    assert y == t[|b| + 2..];
  }

  /** Paths whose keys hold no quote are recovered from their joined, quoted form. */
  lemma {:induction false} JoinQuotedInjective(p: seq<string>, q: seq<string>)
    requires UnquotedPath(p) && UnquotedPath(q)
    requires Join(Quoted(p)) == Join(Quoted(q))
    ensures p == q
    decreases |p|
  {
    if p == [] || q == [] {
      if p != [] {
        JoinQuotedHead(p);
      }
      if q != [] {
        JoinQuotedHead(q);
      }
    } else {
      JoinQuotedHead(p);
      JoinQuotedHead(q);
      var x := if |p| == 1 then "" else ":" + Join(Quoted(p[1..]));
      var y := if |q| == 1 then "" else ":" + Join(Quoted(q[1..]));
      assert ("\"" + p[0] + "\"") + x == ("\"" + q[0] + "\"") + y;
      QuotedPrefix(p[0], q[0], x, y);
      if |p| > 1 && |q| > 1 {
        assert Join(Quoted(p[1..])) == x[1..] == y[1..] == Join(Quoted(q[1..]));
        JoinQuotedInjective(p[1..], q[1..]);
        assert p == [p[0]] + p[1..] && q == [q[0]] + q[1..];
      }
    }
  }

  /** Two different paths whose keys hold no quote get different messages. */
  lemma WarningTextInjective(p: seq<string>, q: seq<string>)
    requires UnquotedPath(p) && UnquotedPath(q)
    requires WarningText(p) == WarningText(q)
    ensures p == q
  {
    var pre, post := "Extra key ", " in configuration file.";
    var s := WarningText(p);
    assert Join(Quoted(p)) == s[|pre|..|s| - |post|];
    assert Join(Quoted(q)) == s[|pre|..|s| - |post|];
    JoinQuotedInjective(p, q);
  }

  /** Distinct paths whose keys hold no quote give distinct messages. */
  lemma WarningsDistinct(paths: seq<seq<string>>)
    requires Distinct(paths)
    requires forall i :: 0 <= i < |paths| ==> UnquotedPath(paths[i])
    ensures Distinct(Warnings(paths))
  {
    var ws := Warnings(paths);
    forall i, j | 0 <= i < j < |ws|
      ensures ws[i] != ws[j]
    {
      if ws[i] == ws[j] {
        WarningTextInjective(paths[i], paths[j]);
      }
    }
  }

  /** A key may hold quotes and colons, so two different paths can share one message. */
  lemma WarningTextAmbiguous()
    ensures WarningText(["a\":\"b"]) == WarningText(["a", "b"])
  {
    JoinQuotedHead(["a\":\"b"]);
    JoinQuotedHead(["a", "b"]);
    assert ["a", "b"][1..] == ["b"];
    JoinQuotedHead(["b"]);
  }
}
