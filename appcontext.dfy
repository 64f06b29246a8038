/**
 * The application-context suffix of the configuration file name.
 *
 * The `appCtx` query parameter selects `app-conf-<ctx>.json` instead of
 * `app-conf.json`. As a simple guard against path traversal, every run of
 * `../` in the value is deleted with the global regular expression
 * `/(\.\.[/])+/g` before the value is used.
 */
module AppContext {
  import opened Options

  const DotDotSlash: string := "../"

  predicate StartsWithDotDotSlash(s: string)
  {
    |s| >= 3 && s[..3] == DotDotSlash
  }

  /** Whether `../` occurs anywhere in s. */
  predicate ContainsDotDotSlash(s: string)
  {
    exists i :: 0 <= i <= |s| - 3 && StartsWithDotDotSlash(s[i..])
  }

  /** Number of consecutive `../` at the front of s: what the greedy `(\.\.[/])+` consumes. */
  function RunLength(s: string): (k: nat)
    ensures 3 * k <= |s|
    ensures k > 0 <==> StartsWithDotDotSlash(s)
    ensures !StartsWithDotDotSlash(s[3 * k..])
  {
    if StartsWithDotDotSlash(s) then 1 + RunLength(s[3..]) else 0
  }

  /**
   * `s.replace(/(\.\.[/])+/g, '')` step by step as the regular-expression
   * engine does it: at each position try the pattern; on a match delete the
   * whole greedy run and resume right after it; otherwise keep the character
   * and try the next position.
   */
  function ReplaceRuns(s: string): string
    decreases |s|
  {
    if s == [] then []
    else if StartsWithDotDotSlash(s) then ReplaceRuns(s[3 * RunLength(s)..])
    else [s[0]] + ReplaceRuns(s[1..])
  }

  /**
   * Reference definition: scan left to right and delete each occurrence of
   * `../` that is found, resuming after it.
   */
  function DeleteEach(s: string): string
    decreases |s|
  {
    if s == [] then []
    else if StartsWithDotDotSlash(s) then DeleteEach(s[3..])
    else [s[0]] + DeleteEach(s[1..])
  }

  /** Deleting a whole run at once is the same as deleting its occurrences one by one. */
  lemma {:induction false} DeleteRun(s: string, k: nat)
    requires 3 * k <= |s|
    requires forall j :: 0 <= j < k ==> StartsWithDotDotSlash(s[3 * j..])
    ensures DeleteEach(s) == DeleteEach(s[3 * k..])
    decreases k
  {
    if k > 0 {
      assert StartsWithDotDotSlash(s[3 * 0..]);
      assert s[3 * 0..] == s;
      var t := s[3..];
      forall j | 0 <= j < k - 1
        ensures StartsWithDotDotSlash(t[3 * j..])
      {
        assert t[3 * j..] == s[3 * (j + 1)..];
      }
      DeleteRun(t, k - 1);
      assert t[3 * (k - 1)..] == s[3 * k..];
    }
  }

  /** Every `../` of the greedy run starts at a multiple of three. */
  lemma {:induction false} RunIsOccurrences(s: string, j: nat)
    requires j < RunLength(s)
    ensures StartsWithDotDotSlash(s[3 * j..])
    decreases j
  {
    if j > 0 {
      RunIsOccurrences(s[3..], j - 1);
      assert s[3..][3 * (j - 1)..] == s[3 * j..];
    } else {
      assert s[0..] == s;
    }
  }

  /** The regular-expression rewrite agrees with the reference definition on every input. */
  lemma {:induction false} ReplaceRunsIsDeleteEach(s: string)
    ensures ReplaceRuns(s) == DeleteEach(s)
    decreases |s|
  {
    if s == [] {
    } else if StartsWithDotDotSlash(s) {
      var k := RunLength(s);
      forall j | 0 <= j < k
        ensures StartsWithDotDotSlash(s[3 * j..])
      {
        RunIsOccurrences(s, j);
      }
      DeleteRun(s, k);
      ReplaceRunsIsDeleteEach(s[3 * k..]);
    } else {
      ReplaceRunsIsDeleteEach(s[1..]);
    }
  }

  /** The path-traversal cleaning of the appCtx value (regular expression semantics). */
  function CleanAppCtx(s: string): (r: string)
    ensures r == DeleteEach(s)
  {
    ReplaceRunsIsDeleteEach(s);
    ReplaceRuns(s)
  }

  /** Number of `../` occurrences the left-to-right scan deletes. */
  function DeletedCount(s: string): nat
    decreases |s|
  {
    if s == [] then 0
    else if StartsWithDotDotSlash(s) then 1 + DeletedCount(s[3..])
    else DeletedCount(s[1..])
  }

  /** The cleaned value is shorter by exactly three characters per deleted `../`. */
  lemma {:induction false} DeleteEachLength(s: string)
    ensures |DeleteEach(s)| + 3 * DeletedCount(s) == |s|
    decreases |s|
  {
    if s == [] {
    } else if StartsWithDotDotSlash(s) {
      DeleteEachLength(s[3..]);
    } else {
      DeleteEachLength(s[1..]);
    }
  }

  /** Characters other than '.' and '/', in order. */
  function Others(s: string): string
  {
    if s == [] then [] else (if s[0] == '.' || s[0] == '/' then [] else [s[0]]) + Others(s[1..])
  }

  /** Only dots and slashes are ever deleted; every other character survives, in order. */
  lemma {:induction false} DeleteEachKeepsOthers(s: string)
    ensures Others(DeleteEach(s)) == Others(s)
    decreases |s|
  {
    if s == [] {
    } else if StartsWithDotDotSlash(s) {
      DeleteEachKeepsOthers(s[3..]);
      OthersSkipDotDotSlash(s);
    } else {
      DeleteEachKeepsOthers(s[1..]);
      assert [s[0]] + DeleteEach(s[1..]) == DeleteEach(s);
      OthersAppend([s[0]], DeleteEach(s[1..]));
    }
  }

  /** A leading `../` contributes nothing to Others. */
  lemma OthersSkipDotDotSlash(s: string)
    requires StartsWithDotDotSlash(s)
    ensures Others(s) == Others(s[3..])
  {
    assert s[0] == '.' && s[1] == '.' && s[2] == '/' by {
      assert s[..3] == DotDotSlash;
      assert s[..3][0] == s[0] && s[..3][1] == s[1] && s[..3][2] == s[2];
    }
    assert Others(s) == Others(s[1..]);
    assert s[1..][1..] == s[2..];
    assert Others(s[1..]) == Others(s[2..]);
    assert s[2..][1..] == s[3..];
  }

  lemma {:induction false} OthersAppend(a: string, b: string)
    ensures Others(a + b) == Others(a) + Others(b)
    decreases |a|
  {
    if a == [] {
      assert a + b == b;
    } else {
      assert (a + b)[1..] == a[1..] + b;
      OthersAppend(a[1..], b);
    }
  }

  /** The cleaning changes the value exactly when it contains `../`. */
  lemma {:induction false} CleanUnchangedIff(s: string)
    ensures CleanAppCtx(s) == s <==> !ContainsDotDotSlash(s)
    decreases |s|
  {
    DeleteEachLength(s);
    CountZeroIff(s);
  }

  /** The scan deletes nothing exactly when there is no `../` to find. */
  lemma {:induction false} CountZeroIff(s: string)
    ensures DeletedCount(s) == 0 <==> !ContainsDotDotSlash(s)
    ensures !ContainsDotDotSlash(s) ==> DeleteEach(s) == s
    decreases |s|
  {
    if s == [] {
    } else if StartsWithDotDotSlash(s) {
      assert s[0..] == s;
    } else {
      CountZeroIff(s[1..]);
      ContainsTail(s);
    }
  }

  /** A string not starting with `../` contains it iff its tail does. */
  lemma ContainsTail(s: string)
    requires s != [] && !StartsWithDotDotSlash(s)
    ensures ContainsDotDotSlash(s) <==> ContainsDotDotSlash(s[1..])
  {
    if ContainsDotDotSlash(s) {
      var i :| 0 <= i <= |s| - 3 && StartsWithDotDotSlash(s[i..]);
      assert i != 0 by { assert s[0..] == s; }
      assert s[1..][i - 1..] == s[i..];
    }
    if ContainsDotDotSlash(s[1..]) {
      var i :| 0 <= i <= |s| - 4 && StartsWithDotDotSlash(s[1..][i..]);
      assert s[1..][i..] == s[i + 1..];
    }
  }

  /** The cleaning is a single pass: it can build a new `../` out of the pieces around a deleted one. */
  lemma CleanIsNotIdempotent()
    ensures CleanAppCtx("..././") == "../"
    ensures CleanAppCtx(CleanAppCtx("..././")) == ""
    ensures ContainsDotDotSlash(CleanAppCtx("..././"))
  {
    var s := "..././";
    assert s[..3][2] == '.' != DotDotSlash[2];
    assert !StartsWithDotDotSlash(s);
    assert StartsWithDotDotSlash(s[1..]);
    assert s[1..][3..] == "./";
    assert DeleteEach("./") == "./";
    assert DeleteEach(s[1..]) == "./";
    assert DeleteEach(s) == "../";
    assert DeleteEach("../") == "";
    assert StartsWithDotDotSlash("../"[0..]);
  }

  /**
   * The `appCtxFile` suffix: empty when the query parameter is absent or
   * empty, otherwise '-' followed by the cleaned value.
   */
  function AppCtxFileSuffix(appCtx: Option<string>): (suffix: string)
    ensures appCtx.None? || appCtx == Some("") ==> suffix == ""
    ensures appCtx.Some? && appCtx.value != "" ==>
      && suffix == "-" + DeleteEach(appCtx.value)
      && |suffix| <= |appCtx.value| + 1
      && Others(suffix[1..]) == Others(appCtx.value)
  {
    match appCtx
    case None => ""
    case Some(v) =>
      if v == "" then ""
      else
        DeleteEachLength(v);
        DeleteEachKeepsOthers(v);
        "-" + CleanAppCtx(v)
  }

  const ConfFileStem: string := "app-conf"

  /** The configuration URL tried first. */
  function PrimaryConfigUrl(suffix: string): string
  {
    "app/" + ConfFileStem + suffix + ".json"
  }

  /** The configuration URL tried when the first request fails. */
  function FallbackConfigUrl(suffix: string): string
  {
    "static/" + ConfFileStem + suffix + ".json"
  }

  /**
   * Different suffixes name different files, in either directory, and the
   * fallback URL is never the primary URL of any suffix: each suffix has
   * configuration files of its own.
   */
  lemma {:induction false} ConfigUrlsInjective(a: string, b: string)
    ensures PrimaryConfigUrl(a) == PrimaryConfigUrl(b) ==> a == b
    ensures FallbackConfigUrl(a) == FallbackConfigUrl(b) ==> a == b
    ensures PrimaryConfigUrl(a) != FallbackConfigUrl(b)
  {
    SuffixReadBack("app/", a);
    SuffixReadBack("app/", b);
    SuffixReadBack("static/", a);
    SuffixReadBack("static/", b);
    assert PrimaryConfigUrl(a)[0] == 'a' && FallbackConfigUrl(b)[0] == 's';
  }

  /** The suffix can be read back from the URL built with it. */
  lemma SuffixReadBack(dir: string, suffix: string)
    ensures var url := dir + ConfFileStem + suffix + ".json";
            |url| == |dir| + |ConfFileStem| + |suffix| + 5
            && url[|dir| + |ConfFileStem|..|url| - 5] == suffix
  {
    var url := dir + ConfFileStem + suffix + ".json";
    assert url == (dir + ConfFileStem) + suffix + ".json";
  }

  /**
   * Without an application context, absent or empty, the configuration is
   * app/app-conf.json, and static/app-conf.json after a failure.
   */
  lemma DefaultConfigUrls()
    ensures PrimaryConfigUrl(AppCtxFileSuffix(None)) == "app/app-conf.json"
    ensures FallbackConfigUrl(AppCtxFileSuffix(None)) == "static/app-conf.json"
    ensures PrimaryConfigUrl(AppCtxFileSuffix(Some(""))) == "app/app-conf.json"
    ensures FallbackConfigUrl(AppCtxFileSuffix(Some(""))) == "static/app-conf.json"
  {
  }

  /**
   * The cleaning does not keep application contexts apart: "../x" and "x"
   * get the same suffix, so both read app/app-conf-x.json.
   */
  lemma ContextsShareSuffix()
    ensures AppCtxFileSuffix(Some("../x")) == AppCtxFileSuffix(Some("x")) == "-x"
    ensures PrimaryConfigUrl(AppCtxFileSuffix(Some("../x"))) == "app/app-conf-x.json"
  {
    DeleteLeadingDotDotSlash();
    assert AppCtxFileSuffix(Some("../x")) == "-" + DeleteEach("../x");
    assert AppCtxFileSuffix(Some("x")) == "-" + DeleteEach("x");
  }

  lemma DeleteLeadingDotDotSlash()
    ensures DeleteEach("../x") == "x" && DeleteEach("x") == "x"
  {
    var s := "../x";
    assert !StartsWithDotDotSlash("x");
    assert "x"[1..] == [];
    assert DeleteEach("x") == "x";
    assert s[..3] == DotDotSlash && s[3..] == "x";
  }

  /**
   * Both URLs carry the same suffix and differ only in the directory: the
   * primary URL with "app/" replaced by "static/" is the fallback URL.
   */
  lemma ConfigUrlsShareSuffix(suffix: string)
    ensures var p := PrimaryConfigUrl(suffix);
            var f := FallbackConfigUrl(suffix);
            p[..4] == "app/" && f[..7] == "static/" && p[4..] == f[7..]
  {
    var rest := ConfFileStem + suffix + ".json";
    SplitAt("app/", rest);
    SplitAt("static/", rest);
  }

  lemma SplitAt(a: string, b: string)
    ensures (a + b)[..|a|] == a && (a + b)[|a|..] == b
  {
  }
}
