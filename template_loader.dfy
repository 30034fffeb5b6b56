/** Prompt templates: YAML files under <base>/prompts, each holding one top-level
    key whose block carries a "template" string, read once and then served from
    a cache; and the placeholder substitution that fills a template. */
module TemplateLoading {
  import opened Base

  /** The part of a YAML document the loader looks at. Mapping keys are distinct. */
  datatype Yaml = YMap(entries: seq<(string, Yaml)>) | YStr(s: string) | YOther

  /** The value under a key of a mapping's entries, if present. */
  function Get(entries: seq<(string, Yaml)>, key: string): (r: Option<Yaml>)
    ensures r.Some? <==> exists i :: 0 <= i < |entries| && entries[i].0 == key
  {
    if entries == [] then None
    else if entries[0].0 == key then Some(entries[0].1)
    else Get(entries[1..], key)
  }

  /** What a prompt file holds: absent from the map = no such file;
      None = reading or parsing it raises; Some(doc) = the parsed document. */
  type Files = map<string, Option<Yaml>>

  /** os.path.join(base_path, "prompts", f"{name}.yaml") */
  function PromptPath(basePath: string, name: string): string {
    basePath + "/prompts/" + name + ".yaml"
  }

  /** The template a parsed document yields: a mapping with exactly one key whose
      value is a mapping holding "template". */
  function TemplateOf(doc: Yaml): Option<string> {
    if doc.YMap? && |doc.entries| == 1 && doc.entries[0].1.YMap? then
      match Get(doc.entries[0].1.entries, "template")
      case Some(YStr(t)) => Some(t)
      case _ => None
    else None
  }

  /** What reading the file for `name` yields, cache aside. */
  function ReadTemplate(files: Files, basePath: string, name: string): Option<string> {
    var path := PromptPath(basePath, name);
    if path !in files then None
    else match files[path]
      case None => None
      case Some(doc) => TemplateOf(doc)
  }

  /** The loader reports a template only for a file of the expected shape. */
  lemma ReadTemplateShape(files: Files, basePath: string, name: string)
    ensures ReadTemplate(files, basePath, name).Some? ==>
      var path := PromptPath(basePath, name);
      path in files && files[path].Some? && files[path].value.YMap? &&
      |files[path].value.entries| == 1 &&
      files[path].value.entries[0].1.YMap? &&
      Get(files[path].value.entries[0].1.entries, "template") == Some(YStr(ReadTemplate(files, basePath, name).value))
    ensures PromptPath(basePath, name) !in files ==> ReadTemplate(files, basePath, name) == None
  {
  }

  class TemplateLoader {
    const basePath: string
    var promptTemplates: map<string, string>

    /** The cache agrees with the files: every cached template is what its file yields. */
    ghost predicate CacheAgrees(files: Files)
      reads this
    {
      forall n :: n in promptTemplates ==> ReadTemplate(files, basePath, n) == Some(promptTemplates[n])
    }

    constructor (basePath: string)
      ensures this.basePath == basePath && promptTemplates == map[]
    {
      this.basePath := basePath;
      promptTemplates := map[];
    }

    /** load_prompt_template: a cached template is returned as it is; otherwise the file
        is read, and a template found there is cached. */
    method LoadPromptTemplate(name: string, files: Files) returns (r: Option<string>)
      modifies this
      ensures name in old(promptTemplates) ==>
        r == Some(old(promptTemplates)[name]) && promptTemplates == old(promptTemplates)
      ensures name !in old(promptTemplates) ==>
        r == ReadTemplate(files, basePath, name) &&
        promptTemplates == if r.Some? then old(promptTemplates)[name := r.value] else old(promptTemplates)
      ensures old(CacheAgrees(files)) ==> CacheAgrees(files) && r == ReadTemplate(files, basePath, name)
    {
      if name in promptTemplates {
        return Some(promptTemplates[name]);
      }
      var path := PromptPath(basePath, name);
      if path !in files {
        return None;
      }
      match files[path]
      case None =>
        r := None;
      case Some(doc) =>
        r := None;
        if doc.YMap? && |doc.entries| == 1 {
          var inner := doc.entries[0].1;
          if inner.YMap? {
            var t := Get(inner.entries, "template");
            if t.Some? && t.value.YStr? {
              promptTemplates := promptTemplates[name := t.value.s];
              r := Some(t.value.s);
            }
          }
        }
    }
  }

  // ------------------------------------------------------------ format_template

  /** A keyword argument: a str is inserted as it is, a list as json.dumps(v, ensure_ascii=False). */
  datatype Arg = Text(s: string) | TextList(items: seq<string>)

  function Render(v: Arg): string {
    match v
    case Text(s) => s
    case TextList(items) => JsonStringList(items)
  }

  function Placeholder(key: string): (p: string)
    ensures |p| == |key| + 2 && p[0] == '{'
  {
    "{" + key + "}"
  }

  /** The template after replacing each "{key}" in turn, in argument order. */
  function FormatSpec(template: string, args: seq<(string, Arg)>): string
    decreases |args|
  {
    if args == [] then template
    else FormatSpec(ReplaceAll(template, Placeholder(args[0].0), Render(args[0].1)), args[1..])
  }

  /** format_template */
  method FormatTemplate(template: string, args: seq<(string, Arg)>) returns (r: string)
    ensures r == FormatSpec(template, args)
  {
    r := template;
    var i := 0;
    while i < |args|
      invariant 0 <= i <= |args|
      invariant FormatSpec(template, args) == FormatSpec(r, args[i..])
    {
      var (k, v) := args[i];
      assert args[i..][1..] == args[i + 1..];
      r := ReplaceAll(r, "{" + k + "}", Render(v));
      i := i + 1;
    }
  }

  lemma {:induction false} ContainsBrace(s: string, p: string)
    requires |p| > 0 && p[0] == '{' && Contains(s, p)
    ensures Contains(s, "{")
    decreases |s|
  {
    if StartsWith(s, p) {
      assert s[..1] == "{";
    } else {
      ContainsBrace(s[1..], p);
    }
  }

  /** A template without any '{' comes back unchanged, whatever the arguments. */
  lemma {:induction false} FormatWithoutPlaceholders(template: string, args: seq<(string, Arg)>)
    requires !Contains(template, "{")
    ensures FormatSpec(template, args) == template
    decreases |args|
  {
    if args != [] {
      var p := Placeholder(args[0].0);
      if Contains(template, p) {
        ContainsBrace(template, p);
      }
      ReplaceAbsent(template, p, Render(args[0].1));
      FormatWithoutPlaceholders(template, args[1..]);
    }
  }

  /** A template that is exactly one placeholder becomes the rendered argument. */
  lemma FillSinglePlaceholder(key: string, v: string)
    ensures FormatSpec(Placeholder(key), [(key, Text(v))]) == v
  {
    var p := Placeholder(key);
    var args := [(key, Text(v))];
    assert StartsWith(p, p);
    assert p[|p|..] == [];
    assert ReplaceAll(p, p, v) == v + ReplaceAll([], p, v);
    assert args[1..] == [];
  }

  /** No '{' and no '}' anywhere: the shape of a placeholder name. */
  predicate BraceFree(u: string) {
    forall i | 0 <= i < |u| :: u[i] != '{' && u[i] != '}'
  }

  predicate NoOpenBrace(u: string) {
    forall i | 0 <= i < |u| :: u[i] != '{'
  }

  /** A prefix without '{' cannot hold the start of a placeholder match: replacement
      copies it through. */
  lemma {:induction false} ReplaceSkipsPrefix(u: string, w: string, pat: string, rep: string)
    requires |pat| > 0 && pat[0] == '{' && NoOpenBrace(u)
    ensures ReplaceAll(u + w, pat, rep) == u + ReplaceAll(w, pat, rep)
    decreases |u|
  {
    if u == [] {
      assert u + w == w;
    } else {
      var s := u + w;
      assert s[0] == u[0];
      assert !StartsWith(s, pat);
      assert s[1..] == u[1..] + w;
      ReplaceSkipsPrefix(u[1..], w, pat, rep);
      assert [u[0]] + u[1..] == u;
    }
  }

  /** A placeholder occurring in u + w, where u has no '{', occurs in w. */
  lemma {:induction false} ContainsPastPrefix(u: string, w: string, p: string)
    requires |p| > 0 && p[0] == '{' && NoOpenBrace(u) && Contains(u + w, p)
    ensures Contains(w, p)
    decreases |u|
  {
    if u == [] {
      assert u + w == w;
    } else {
      var s := u + w;
      assert s[0] == u[0];
      assert !StartsWith(s, p);
      assert s[1..] == u[1..] + w;
      ContainsPastPrefix(u[1..], w, p);
    }
  }

  /** Where a placeholder of a brace-free name starts, its closing brace is the first one. */
  lemma PlaceholderAt(s: string, a: string)
    requires BraceFree(a) && StartsWith(s, Placeholder(a))
    ensures |a| + 2 <= |s| && s[|a| + 1] == '}'
    ensures forall i | 1 <= i <= |a| :: s[i] == a[i - 1]
  {
    assert s[..|a| + 2] == Placeholder(a);
  }

  /** At a place where the placeholder of one brace-free name starts, the placeholder
      of another brace-free name starts exactly when the names are equal. */
  lemma PlaceholderNamesAgree(s: string, a: string, k: string)
    requires BraceFree(a) && BraceFree(k) && StartsWith(s, Placeholder(a))
    ensures StartsWith(s, Placeholder(k)) <==> a == k
  {
    if StartsWith(s, Placeholder(k)) {
      PlaceholderAt(s, a);
      PlaceholderAt(s, k);
      assert |a| == |k|;
      forall i | 0 <= i < |a|
        ensures a[i] == k[i]
      {
        assert s[i + 1] == a[i] && s[i + 1] == k[i];
      }
    }
  }

  /** Replacing the placeholder of one name leaves the placeholder of another in place. */
  lemma {:induction false} ReplaceKeepsPlaceholder(s: string, a: string, k: string, rep: string)
    requires BraceFree(a) && BraceFree(k) && a != k && Contains(s, Placeholder(k))
    ensures Contains(ReplaceAll(s, Placeholder(a), rep), Placeholder(k))
    decreases |s|
  {
    var pa := Placeholder(a);
    var pk := Placeholder(k);
    var r := ReplaceAll(s, pa, rep);
    if StartsWith(s, pa) {
      PlaceholderNamesAgree(s, a, k);
      assert s[..|pa|] == pa;
      assert s[1..] == (a + "}") + s[|pa|..];
      ContainsPastPrefix(a + "}", s[|pa|..], pk);
      ReplaceKeepsPlaceholder(s[|pa|..], a, k, rep);
      var x := ReplaceAll(s[|pa|..], pa, rep);
      ContainsInfix(rep, x, [], pk);
      assert rep + x + [] == r;
    } else if StartsWith(s, pk) {
      assert s[..|pk|] == pk;
      assert s[1..] == (k + "}") + s[|pk|..];
      ReplaceSkipsPrefix(k + "}", s[|pk|..], pa, rep);
      var x := ReplaceAll(s[|pk|..], pa, rep);
      assert r == pk + x;
      assert r[0..|pk|] == pk;
      ContainsAt(r, pk, 0);
    } else {
      ReplaceKeepsPlaceholder(s[1..], a, k, rep);
      var x := ReplaceAll(s[1..], pa, rep);
      ContainsInfix([s[0]], x, [], pk);
      assert [s[0]] + x + [] == r;
    }
  }

  /** A placeholder whose name no argument carries is left in the result, whatever
      the arguments render to, as long as the names are brace-free. */
  lemma {:induction false} FormatKeepsUnmatchedPlaceholder(template: string, args: seq<(string, Arg)>, k: string)
    requires BraceFree(k) && Contains(template, Placeholder(k))
    requires forall i | 0 <= i < |args| :: BraceFree(args[i].0) && args[i].0 != k
    ensures Contains(FormatSpec(template, args), Placeholder(k))
    decreases |args|
  {
    if args != [] {
      ReplaceKeepsPlaceholder(template, args[0].0, k, Render(args[0].1));
      FormatKeepsUnmatchedPlaceholder(ReplaceAll(template, Placeholder(args[0].0), Render(args[0].1)), args[1..], k);
    }
  }
}
