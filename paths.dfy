/** `getDataPath` of `src/utils/pathUtils.ts`: the data directory under the
    site's base path, with every run of slashes collapsed to one. The build
    environment (`import.meta.env`) is a parameter. */
module Paths {
  import opened Text

  /** `import.meta.env.PROD` and `import.meta.env.BASE_URL`. */
  datatype Env = Env(prod: bool, baseUrl: string)

  /** The base path: "/torah-v2/" in production, else `BASE_URL`, or "/"
      when that is empty. */
  function Base(env: Env): (b: string)
    ensures env.prod ==> b == "/torah-v2/"
    ensures !env.prod && env.baseUrl != "" ==> b == env.baseUrl
    ensures !env.prod && env.baseUrl == "" ==> b == "/"
  {
    if env.prod then "/torah-v2/" else if env.baseUrl != "" then env.baseUrl else "/"
  }

  /** No two consecutive slashes. */
  predicate NoDoubleSlash(s: string) {
    forall i :: 0 <= i < |s| - 1 ==> !(s[i] == '/' && s[i + 1] == '/')
  }

  /** The characters of `s` other than '/', in order. */
  function NonSlash(s: string): string {
    if s == [] then [] else (if s[0] == '/' then [] else [s[0]]) + NonSlash(s[1..])
  }

  /** `s.replace(/\/+/g, '/')`: each run of slashes keeps one slash. */
  function CollapseSlashes(s: string): (r: string)
    ensures |s| > 0 ==> |r| > 0 && r[0] == s[0]
    ensures NoDoubleSlash(r)
    ensures NonSlash(r) == NonSlash(s)
  {
    if |s| <= 1 then s
    else if s[0] == '/' && s[1] == '/' then CollapseSlashes(s[1..])
    else
      var rest := CollapseSlashes(s[1..]);
      assert NonSlash([s[0]] + rest) == (if s[0] == '/' then [] else [s[0]]) + NonSlash(rest) by {
        assert ([s[0]] + rest)[1..] == rest;
      }
      [s[0]] + rest
  }

  /** A string without a double slash is left as it is. */
  lemma {:induction false} CollapseKeepsSingleSlashes(s: string)
    requires NoDoubleSlash(s)
    ensures CollapseSlashes(s) == s
  {
    if |s| > 1 {
      CollapseKeepsSingleSlashes(s[1..]);
      assert [s[0]] + s[1..] == s;
    }
  }

  /** Collapsing twice is collapsing once. */
  lemma CollapseIdempotent(s: string)
    ensures CollapseSlashes(CollapseSlashes(s)) == CollapseSlashes(s)
  {
    CollapseKeepsSingleSlashes(CollapseSlashes(s));
  }

  /** A doubled slash anywhere collapses like a single one; with the lemma
      above this pins the function down on every string. */
  lemma {:induction false} CollapseDoubleSlash(a: string, b: string)
    ensures CollapseSlashes(a + "//" + b) == CollapseSlashes(a + "/" + b)
  {
    if a == [] {
      assert (a + "//" + b)[1..] == a + "/" + b;
    } else {
      CollapseDoubleSlash(a[1..], b);
      assert (a + "//" + b)[1..] == a[1..] + "//" + b;
      assert (a + "/" + b)[1..] == a[1..] + "/" + b;
      assert (a + "//" + b)[0] == (a + "/" + b)[0] == a[0];
      assert (a + "//" + b)[1] == (a + "/" + b)[1];
    }
  }

  /** A prefix without a double slash survives collapsing up to its last
      character. */
  lemma {:induction false} CollapseKeepsPrefix(p: string, s: string)
    requires |p| >= 1 && NoDoubleSlash(p)
    ensures CollapseSlashes(p + s) == p[..|p| - 1] + CollapseSlashes([p[|p| - 1]] + s)
  {
    if |p| > 1 {
      var q := p[1..];
      NoDoubleSlashTail(p);
      CollapseKeepsPrefix(q, s);
      PrefixStep(p, s);
    } else {
      assert p[..0] == [];
    }
  }

  /** Dropping the first character keeps a string free of double slashes. */
  lemma NoDoubleSlashTail(p: string)
    requires |p| >= 1 && NoDoubleSlash(p)
    ensures NoDoubleSlash(p[1..])
  {
    var q := p[1..];
    forall i | 0 <= i < |q| - 1
      ensures !(q[i] == '/' && q[i + 1] == '/')
    {
      assert q[i] == p[i + 1] && q[i + 1] == p[i + 2];
    }
  }

  /** The inductive step of the lemma above, with its hypothesis on the
      tail as a precondition. */
  lemma PrefixStep(p: string, s: string)
    requires |p| > 1 && !(p[0] == '/' && p[1] == '/')
    requires CollapseSlashes(p[1..] + s) == p[1..][..|p| - 2] + CollapseSlashes([p[|p| - 1]] + s)
    ensures CollapseSlashes(p + s) == p[..|p| - 1] + CollapseSlashes([p[|p| - 1]] + s)
  {
    assert (p + s)[1..] == p[1..] + s;
    assert CollapseSlashes(p + s) == [p[0]] + CollapseSlashes(p[1..] + s);
    ConsPrefix(p, CollapseSlashes(p[1..] + s), CollapseSlashes([p[|p| - 1]] + s));
  }

  /** Putting back the first character of `p` in front of a prefix of its
      tail. */
  lemma ConsPrefix(p: string, x: string, y: string)
    requires |p| > 1 && x == p[1..][..|p| - 2] + y
    ensures [p[0]] + x == p[..|p| - 1] + y
  {
    assert p[..|p| - 1] == [p[0]] + p[1..][..|p| - 2];
  }

  /** `getDataPath(path)`. */
  function DataPath(env: Env, path: string): (r: string)
    ensures NoDoubleSlash(r)
    ensures NonSlash(r) == NonSlash(Base(env) + "data/" + path)
  {
    CollapseSlashes(Base(env) + "data/" + path)
  }

  /** In production every data path lies under "/torah-v2/data/". */
  lemma ProductionDataPath(baseUrl: string, path: string)
    ensures StartsWith(DataPath(Env(true, baseUrl), path), "/torah-v2/data/")
  {
    var p := "/torah-v2/data/";
    assert NoDoubleSlash(p);
    assert Base(Env(true, baseUrl)) + "data/" + path == p + path;
    CollapseKeepsPrefix(p, path);
    assert p[..|p| - 1] == "/torah-v2/data";
  }

  /** Outside production with the default base, a relative path is served
      from "/data/". */
  lemma DefaultBaseDataPath(path: string)
    requires NoDoubleSlash(path) && (|path| == 0 || path[0] != '/')
    ensures DataPath(Env(false, ""), path) == "/data/" + path
  {
    var s := "/data/" + path;
    assert Base(Env(false, "")) + "data/" + path == s;
    assert NoDoubleSlash(s) by {
      forall i | 0 <= i < |s| - 1
        ensures !(s[i] == '/' && s[i + 1] == '/')
      {
        if i >= 6 {
          assert s[i] == path[i - 6] && s[i + 1] == path[i - 5];
        }
      }
    }
    CollapseKeepsSingleSlashes(s);
  }
}
