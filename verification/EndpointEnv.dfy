/** The inventory rendered as exports, and what a shell that evaluates the rendering ends up holding. */
module EndpointEnv {
  import opened Wrappers
  import opened Text
  import opened Shell

  datatype Kind = Deployment | Tunnel | Pod | Serverless

  datatype Endpoint = Endpoint(
    name: string,
    kind: Kind,
    provider: Option<string>,
    id: Option<string>,
    baseUrl: Option<string>,
    model: Option<string>,
    apiKeyEnv: Option<string>)

  // ---- The rendering ----

  function UpperOrUnderscore(c: char): char {
    if IsLower(c) then (c as int - 32) as char
    else if IsUpper(c) || IsDigit(c) then c
    else '_'
  }

  function Uppered(s: string): (r: string)
    ensures |r| == |s| && forall i :: 0 <= i < |s| ==> r[i] == UpperOrUnderscore(s[i])
  {
    if s == "" then "" else [UpperOrUnderscore(s[0])] + Uppered(s[1..])
  }

  /** Letters raised, digits kept, the rest underscores; `E_` before a result with no leading letter. */
  function EnvPrefix(name: string): string {
    var prefix := Uppered(name);
    if prefix == "" || !IsLetter(prefix[0]) then "E_" + prefix else prefix
  }

  /** Every `'` written `'\''`. */
  function Escaped(value: string): string {
    if value == "" then "" else (if value[0] == '\'' then "'\\''" else [value[0]]) + Escaped(value[1..])
  }

  function ShellQuote(value: string): string { "'" + Escaped(value) + "'" }

  function Exported(name: string, word: string): string { EXPORT + name + "=" + word + "\n" }

  function KindText(kind: Kind): string {
    match kind
    case Deployment => "Deployment"
    case Tunnel => "Tunnel"
    case Pod => "Pod"
    case Serverless => "Serverless"
  }

  lemma ExportedSays(name: string, word: string)
    ensures Exported(name, word) == "export " + name + "=" + word + "\n"
  {
  }

  function OrElse(text: Option<string>, other: string): string { if text.Some? then text.value else other }

  function HasNoEndpoint(): (s: string)
    ensures OneLine(s)
  {
    " has no endpoint"
  }

  function ToExport(): (s: string)
    ensures OneLine(s)
  {
    " to export (no"
  }

  function NoForward(): (s: string)
    ensures OneLine(s)
  {
    " forward reaches it)"
  }

  /** Why a row is not exported. */
  function NotExported(): (s: string)
    ensures OneLine(s)
  {
    HasNoEndpoint() + ToExport() + NoForward()
  }

  predicate OneLine(s: string) { '\n' !in s }

  /** What is said of a row nothing reaches, after its name. */
  function Said(row: Endpoint): string {
    ": " + KindText(row.kind) + " " + OrElse(row.provider, "-") + "/" + OrElse(row.id, "-") + NotExported()
  }

  /** What follows the `#` of a row nothing reaches. */
  function Remark(row: Endpoint): string { " " + row.name + Said(row) }

  lemma KindsSay(kind: Kind)
    ensures KindText(kind) ==
            match kind
            case Deployment => "Deployment"
            case Tunnel => "Tunnel"
            case Pod => "Pod"
            case Serverless => "Serverless"
    ensures NotExported() == " has no endpoint" + " to export (no" + " forward reaches it)"
  {
  }

  /** The whole line written for a row nothing reaches. */
  lemma RemarkSays(row: Endpoint)
    requires row.baseUrl.None?
    ensures var provider := if row.provider.Some? then row.provider.value else "-";
            var id := if row.id.Some? then row.id.value else "-";
            var machine := provider + ("/" + (id + (NotExported() + "\n")));
            Rendered(row) == "# " + (row.name + (": " + (KindText(row.kind) + (" " + machine))))
  {
    hide EnvPrefix, Exported, KindText, NotExported;
    var kind, provider, id := KindText(row.kind), OrElse(row.provider, "-"), OrElse(row.id, "-");
    Grouped(": ", kind, " ", provider, "/", id, NotExported(), "\n");
    var said := ": " + (kind + (" " + (provider + ("/" + (id + (NotExported() + "\n"))))));
    assert Said(row) + "\n" == said;
    assert " " + row.name + Said(row) + "\n" == " " + (row.name + said);
    assert "#" + (" " + (row.name + said)) == "# " + (row.name + said);
    assert "#" + Remark(row) + "\n" == "#" + (Remark(row) + "\n");
  }

  lemma Grouped(a: string, b: string, c: string, d: string, e: string, f: string, g: string, h: string)
    ensures a + b + c + d + e + f + g + h == a + (b + (c + (d + (e + (f + (g + h))))))
  {
  }

  const BASE_URL := "_BASE_URL"
  const MODEL := "_MODEL"
  const API_KEY := "_API_KEY"

  function KeyWord(key: Option<string>): string {
    if key.Some? then Reference(key.value) else "''"
  }

  function Rendered(row: Endpoint): string {
    var prefix := EnvPrefix(row.name);
    if row.baseUrl.Some? then
      Exported(prefix + BASE_URL, ShellQuote(row.baseUrl.value))
      + Exported(prefix + MODEL, ShellQuote(OrElse(row.model, "")))
      + Exported(prefix + API_KEY, KeyWord(row.apiKeyEnv))
    else "#" + Remark(row) + "\n"
  }

  function RenderedAll(rows: seq<Endpoint>): string {
    if rows == [] then "" else Rendered(rows[0]) + RenderedAll(rows[1..])
  }

  lemma RowComesFirst(rows: seq<Endpoint>, i: nat)
    requires i < |rows|
    ensures RenderedAll(rows[i..]) == Rendered(rows[i]) + RenderedAll(rows[i + 1..])
  {
    assert rows[i..][0] == rows[i] && rows[i..][1..] == rows[i + 1..];
  }

  lemma PushedInTurn(out: string, a: string, b: string, c: string, rest: string)
    ensures out + a + b + c + rest == out + (a + b + c + rest)
  {
  }

  /** Pushed onto the text row by row, line by line. */
  method RenderEnv(rows: seq<Endpoint>) returns (out: string)
    ensures out == RenderedAll(rows)
  {
    hide Exported, Remark, EnvPrefix, ShellQuote, KeyWord, RenderedAll;
    out := "";
    var i := 0;
    while i < |rows|
      invariant 0 <= i <= |rows| && out + RenderedAll(rows[i..]) == RenderedAll(rows[0..])
    {
      var row := rows[i];
      ghost var before, rest := out, RenderedAll(rows[i + 1..]);
      RowComesFirst(rows, i);
      var prefix := EnvPrefix(row.name);
      if row.baseUrl.Some? {
        var url := Exported(prefix + BASE_URL, ShellQuote(row.baseUrl.value));
        var model := Exported(prefix + MODEL, ShellQuote(OrElse(row.model, "")));
        var key := Exported(prefix + API_KEY, KeyWord(row.apiKeyEnv));
        out := out + url;
        out := out + model;
        out := out + key;
        PushedInTurn(before, url, model, key, rest);
      } else {
        var line := "#" + Remark(row) + "\n";
        out := out + line;
        PushedInTurn(before, line, "", "", rest);
        assert line + "" + "" == line && before + line + "" + "" == before + line;
      }
      i := i + 1;
    }
    assert rows[0..] == rows;
    NothingLeft(rows, out);
  }

  lemma NothingLeft(rows: seq<Endpoint>, out: string)
    ensures out + RenderedAll(rows[|rows|..]) == out
  {
  }

  // ---- Evaluating it ----

  /** Every prefix is a name a shell takes. */
  lemma PrefixIsName(name: string, suffix: string)
    requires forall i :: 0 <= i < |suffix| ==> IsNameChar(suffix[i])
    ensures IsName(EnvPrefix(name)) && IsName(EnvPrefix(name) + suffix)
    ensures IsUpper(EnvPrefix(name)[0])
  {
  }

  /** What a name's prefix is, character by character: lower case raised, upper case and digits as they are,
      anything else an underscore; after `E_` where the name has no letter first. */
  lemma PrefixSays(name: string)
    ensures var bare := name != "" && ('a' <= name[0] <= 'z' || 'A' <= name[0] <= 'Z');
            var prefix := EnvPrefix(name);
            && |prefix| == |name| + (if bare then 0 else 2) && (!bare ==> prefix[..2] == "E_")
            && forall i :: 0 <= i < |name| ==>
                 var c, d := name[i], prefix[if bare then i else i + 2];
                 if 'a' <= c <= 'z' then d as int == c as int - ('a' as int - 'A' as int)
                 else if 'A' <= c <= 'Z' || '0' <= c <= '9' then d == c
                 else d == '_'
  {
  }

  lemma QuotedCharacterReads(c: char, after: string, env: Environment)
    requires c != '\''
    ensures ReadWord(Single, [c] + after, env) == Prefixed([c], ReadWord(Single, after, env))
  {
    assert ([c] + after)[1..] == after;
  }

  lemma QuoteCloses(rest: string, env: Environment)
    requires rest == "" || rest[0] == '\n'
    ensures ReadWord(Single, "'" + rest, env) == Some(("", rest))
  {
    assert ("'" + rest)[1..] == rest;
  }

  /** A quoted value reads as itself, whatever characters it holds. */
  lemma {:induction false} QuotedReads(value: string, rest: string, env: Environment)
    requires rest == "" || rest[0] == '\n'
    ensures ReadWord(Single, Escaped(value) + ("'" + rest), env) == Some((value, rest))
    decreases |value|
  {
    hide ReadWord;
    if value == "" {
      QuoteCloses(rest, env);
      assert Escaped(value) + ("'" + rest) == "'" + rest;
    } else {
      QuotedReads(value[1..], rest, env);
      var after := Escaped(value[1..]) + ("'" + rest);
      assert value == [value[0]] + value[1..];
      if value[0] == '\'' {
        EscapedQuoteReads(after, env);
        assert Escaped(value) + ("'" + rest) == "'\\''" + after;
      } else {
        QuotedCharacterReads(value[0], after, env);
        assert Escaped(value) + ("'" + rest) == [value[0]] + after;
      }
    }
  }

  /** A quote written outside the quotes, with the quotes closed before it and opened after it. */
  lemma EscapedQuoteReads(after: string, env: Environment)
    ensures ReadWord(Single, "'\\''" + after, env) == Prefixed("'", ReadWord(Single, after, env))
  {
    var word := "'\\''" + after;
    var reopened := "'" + after;
    assert word[1..] == "\\''" + after;
    assert word[1..][2..] == reopened && reopened[1..] == after;
    assert ReadWord(Bare, reopened, env) == ReadWord(Single, after, env);
    assert ReadWord(Bare, word[1..], env) == Prefixed("'", ReadWord(Bare, reopened, env));
  }

  lemma ShellQuoteReads(value: string, rest: string, env: Environment)
    requires rest == "" || rest[0] == '\n'
    ensures ReadWord(Bare, ShellQuote(value) + rest, env) == Some((value, rest))
  {
    QuotedReads(value, rest, env);
    var inner := Escaped(value) + ("'" + rest);
    assert ShellQuote(value) + rest == "'" + inner;
    assert ("'" + inner)[1..] == inner;
  }

  /** What one row leaves in the environment. */
  function Bound(row: Endpoint, env: Environment): Environment {
    if row.baseUrl.None? then env
    else
      var prefix := EnvPrefix(row.name);
      var named := env[prefix + BASE_URL := row.baseUrl.value][prefix + MODEL := OrElse(row.model, "")];
      named[prefix + API_KEY := if row.apiKeyEnv.Some? then ValueOf(named, row.apiKeyEnv.value) else ""]
  }

  function BoundAll(rows: seq<Endpoint>, env: Environment): Environment {
    if rows == [] then env else BoundAll(rows[1..], Bound(rows[0], env))
  }

  /** What one row binds: three names under its prefix; the key is what its reference reads once the other two
      are bound, and nothing where it refers to none. */
  lemma RowBinds(row: Endpoint, env: Environment)
    requires row.baseUrl.Some?
    ensures var prefix := EnvPrefix(row.name);
            var model := if row.model.Some? then row.model.value else "";
            var named := env[prefix + "_BASE_URL" := row.baseUrl.value][prefix + "_MODEL" := model];
            && Bound(row, env).Keys == named.Keys + {prefix + "_API_KEY"}
            && (forall name :: name in named && name != prefix + "_API_KEY" ==> Bound(row, env)[name] == named[name])
            && Bound(row, env)[prefix + "_API_KEY"] ==
               if row.apiKeyEnv.Some? && row.apiKeyEnv.value in named then named[row.apiKeyEnv.value] else ""
  {
  }

  predicate InertRemark(row: Endpoint) { AllInert(Split("#" + Remark(row), '\n')) }

  /** Key names a shell takes, and remarks whose every line is blank or a comment. */
  predicate Readable(row: Endpoint) {
    && (row.baseUrl.Some? && row.apiKeyEnv.Some? ==> IsName(row.apiKeyEnv.value))
    && (row.baseUrl.None? ==> InertRemark(row))
  }

  lemma ExportedBinds(name: string, word: string, value: string, rest: string, env: Environment)
    requires IsName(name) && ReadWord(Bare, word + ("\n" + rest), env) == Some((value, "\n" + rest))
    ensures Evaluated(Exported(name, word) + rest, env) == Evaluated(rest, env[name := value])
  {
    hide ReadWord, Evaluated;
    assert word + ("\n" + rest) == word + "\n" + rest;
    ExportBinds(name, word, value, rest, env);
  }

  lemma KeyWordReads(key: Option<string>, rest: string, env: Environment)
    requires key.Some? ==> IsName(key.value)
    requires rest == "" || rest[0] == '\n'
    ensures ReadWord(Bare, KeyWord(key) + rest, env) == Some((if key.Some? then ValueOf(env, key.value) else "", rest))
  {
    hide ReadWord;
    if key.Some? {
      ReferenceReads(key.value, rest, env);
    } else {
      ShellQuoteReads("", rest, env);
      assert ShellQuote("") == "''";
    }
  }

  /** One row's text, evaluated before the rest, leaves what the row binds. */
  lemma RowEvaluates(row: Endpoint, rest: string, env: Environment)
    requires Readable(row)
    ensures Evaluated(Rendered(row) + rest, env) == Evaluated(rest, Bound(row, env))
  {
    hide ReadWord, Evaluated, Exported, ShellQuote, KeyWord, EnvPrefix, Remark, ValueOf, IsName, AllInert;
    if row.baseUrl.Some? {
      var prefix := EnvPrefix(row.name);
      var model := OrElse(row.model, "");
      var afterModel := Exported(prefix + API_KEY, KeyWord(row.apiKeyEnv)) + rest;
      var afterUrl := Exported(prefix + MODEL, ShellQuote(model)) + afterModel;
      var env1 := env[prefix + BASE_URL := row.baseUrl.value];
      var env2 := env1[prefix + MODEL := model];
      assert Rendered(row) + rest == Exported(prefix + BASE_URL, ShellQuote(row.baseUrl.value)) + afterUrl;
      PrefixIsName(row.name, BASE_URL);
      PrefixIsName(row.name, MODEL);
      PrefixIsName(row.name, API_KEY);
      ShellQuoteReads(row.baseUrl.value, "\n" + afterUrl, env);
      ExportedBinds(prefix + BASE_URL, ShellQuote(row.baseUrl.value), row.baseUrl.value, afterUrl, env);
      ShellQuoteReads(model, "\n" + afterModel, env1);
      ExportedBinds(prefix + MODEL, ShellQuote(model), model, afterModel, env1);
      KeyWordReads(row.apiKeyEnv, "\n" + rest, env2);
      ExportedBinds(prefix + API_KEY, KeyWord(row.apiKeyEnv),
                    if row.apiKeyEnv.Some? then ValueOf(env2, row.apiKeyEnv.value) else "", rest, env2);
    } else {
      InertLinesBindNothing("#" + Remark(row), rest, env);
    }
  }

  lemma OneLineBoth(a: string, b: string)
    requires OneLine(a) && OneLine(b)
    ensures OneLine(a + b)
  {
  }

  lemma MachineIsOneLine(provider: string, id: string)
    requires OneLine(provider) && OneLine(id)
    ensures OneLine(provider + "/" + id)
  {
    OneLineBoth(provider, "/");
    OneLineBoth(provider + "/", id);
  }

  /** No newline in what a remark is made of. */
  predicate Plain(row: Endpoint) {
    OneLine(row.name) && OneLine(OrElse(row.provider, "-")) && OneLine(OrElse(row.id, "-"))
  }

  lemma SaidIsOneLine(row: Endpoint)
    requires Plain(row)
    ensures OneLine(Said(row))
  {
    hide NotExported;
    var kind, machine := ": " + KindText(row.kind) + " ", OrElse(row.provider, "-") + "/" + OrElse(row.id, "-");
    OneLineBoth(": ", KindText(row.kind));
    OneLineBoth(": " + KindText(row.kind), " ");
    MachineIsOneLine(OrElse(row.provider, "-"), OrElse(row.id, "-"));
    OneLineBoth(kind, machine);
    OneLineBoth(kind + machine, NotExported());
    assert Said(row) == kind + machine + NotExported();
  }

  /** A remark made of one line is inert. */
  lemma PlainRemarksAreInert(row: Endpoint)
    requires Plain(row)
    ensures InertRemark(row)
  {
    hide Said;
    SaidIsOneLine(row);
    OneLineBoth(" ", row.name);
    OneLineBoth(" " + row.name, Said(row));
    OneLineBoth("#", Remark(row));
    hide Remark;
    assert ("#" + Remark(row))[0] == '#';
  }

  /** Evaluating what is rendered of a row is evaluating what follows it. */
  ghost predicate BindsNothing(row: Endpoint) {
    forall rest, env :: Evaluated(Rendered(row) + rest, env) == Evaluated(rest, env)
  }

  /** The remark on a row without a URL changes nothing, whatever follows it and whatever the environment,
      if and only if each of its lines is blank or, after any blanks, a comment; the first always is one.
      A line of any other kind binds a name, or is of a kind not read here. */
  lemma RemarkBindsNothingExactly(row: Endpoint)
    requires row.baseUrl.None?
    ensures InertRemark(row) <==> BindsNothing(row)
  {
    hide Evaluated, Remark, AllInert;
    var text := "#" + Remark(row);
    assert Rendered(row) == text + "\n";
    if InertRemark(row) {
      forall rest, env
        ensures Evaluated(Rendered(row) + rest, env) == Evaluated(rest, env)
      {
        InertLinesBindNothing(text, rest, env);
      }
    }
    if BindsNothing(row) {
      assert Evaluated(Rendered(row) + "", map[]) == Evaluated("", map[]);
      assert Rendered(row) + "" == text + "\n";
      EmptyScript();
      assert Evaluated(text + "\n", map[]) == Some(map[]);
      OnlyInertLinesBindNothing(text);
      assert InertRemark(row);
    }
  }

  lemma EmptyScript()
    ensures Evaluated("", map[]) == Some(map[])
  {
  }

  /** A line inside a name is read as one of the script's: where it is an export, and what follows it in
      the name starts a comment, evaluating the remark binds it. */
  lemma ANameCanBind(row: Endpoint, head: string, name: string, value: string, tail: string, rest: string,
                     env: Environment)
    requires row.baseUrl.None? && IsName(name) && OneLine(head)
    requires row.name == head + "\n" + Exported(name, ShellQuote(value)) + "#" + tail
    requires OneLine(tail) && OneLine(OrElse(row.provider, "-")) && OneLine(OrElse(row.id, "-"))
    ensures Evaluated(Rendered(row) + rest, env) == Evaluated(rest, env[name := value])
  {
    hide Evaluated, Said, Exported, ShellQuote, ReadWord;
    var last := tail + Said(row);
    OneLineBoth(" ", head);
    SaidIsOneLine(row.(name := tail));
    assert Said(row.(name := tail)) == Said(row) by { SaidIgnoresTheName(row, tail); }
    OneLineBoth(tail, Said(row));
    var after := "#" + last + "\n" + rest;
    var line := Exported(name, ShellQuote(value));
    assert Rendered(row) + rest == "#" + (" " + head) + "\n" + (line + after);
    CommentBindsNothing(" " + head, line + after, env);
    ShellQuoteReads(value, "\n" + after, env);
    ExportedBinds(name, ShellQuote(value), value, after, env);
    CommentBindsNothing(last, rest, env[name := value]);
  }

  lemma SaidIgnoresTheName(row: Endpoint, name: string)
    ensures Said(row.(name := name)) == Said(row)
  {
  }

  /** Evaluating the rendering leaves exactly what its rows bind, in order, and nothing else changed. */
  lemma {:induction false} RenderingEvaluates(rows: seq<Endpoint>, env: Environment)
    requires forall i :: 0 <= i < |rows| ==> Readable(rows[i])
    ensures Evaluated(RenderedAll(rows), env) == Some(BoundAll(rows, env))
  {
    hide Readable, Rendered, Bound;
    if rows != [] {
      RowEvaluates(rows[0], RenderedAll(rows[1..]), env);
      RenderingEvaluates(rows[1..], Bound(rows[0], env));
    }
  }

  // ---- What a consumer finds ----

  /** The names a row exports. */
  predicate Exports(row: Endpoint, name: string) {
    && row.baseUrl.Some?
    && var prefix := EnvPrefix(row.name);
       (name == prefix + BASE_URL || name == prefix + MODEL || name == prefix + API_KEY)
  }

  lemma {:induction false} OnlyExportsChange(rows: seq<Endpoint>, env: Environment, name: string)
    requires forall i :: 0 <= i < |rows| ==> !Exports(rows[i], name)
    ensures (name in BoundAll(rows, env) <==> name in env) && ValueOf(BoundAll(rows, env), name) == ValueOf(env, name)
  {
    if rows != [] {
      assert !Exports(rows[0], name);
      OnlyExportsChange(rows[1..], Bound(rows[0], env), name);
    }
  }

  /** The three names of one prefix are three names, and none is a name of another prefix. */
  lemma NamesAreApart(p: string, q: string)
    ensures p + BASE_URL != q + MODEL && p + BASE_URL != q + API_KEY && p + MODEL != q + API_KEY
    ensures p != q ==> p + BASE_URL != q + BASE_URL && p + MODEL != q + MODEL && p + API_KEY != q + API_KEY
  {
    EndsApart(p, BASE_URL, q, MODEL, 1);
    EndsApart(p, BASE_URL, q, API_KEY, 0);
    EndsApart(p, MODEL, q, API_KEY, 0);
    SameEnd(p, q, BASE_URL);
    SameEnd(p, q, MODEL);
    SameEnd(p, q, API_KEY);
  }

  lemma EndsApart(p: string, a: string, q: string, b: string, back: nat)
    requires back < |a| && back < |b| && a[|a| - 1 - back] != b[|b| - 1 - back]
    ensures p + a != q + b
  {
    var s, t := p + a, q + b;
    assert s[|s| - 1 - back] == a[|a| - 1 - back] && t[|t| - 1 - back] == b[|b| - 1 - back];
  }

  lemma SameEnd(p: string, q: string, end: string)
    ensures p + end == q + end ==> p == q
  {
    assert p == (p + end)[..|p|] && q == (q + end)[..|q|];
  }

  /** What a row's own reference reads: its own two names come before it. */
  function KeyRead(row: Endpoint, before: string -> string): string {
    var prefix := EnvPrefix(row.name);
    match row.apiKeyEnv
    case None => ""
    case Some(key) =>
      if key == prefix + MODEL then OrElse(row.model, "")
      else if key == prefix + BASE_URL then OrElse(row.baseUrl, "")
      else before(key)
  }

  /** What a name holds after some rows, looked up from the last row that exports it back. */
  function Looked(rows: seq<Endpoint>, held: Environment, name: string): string {
    if rows == [] then ValueOf(held, name)
    else
      var n := |rows| - 1;
      var row, prefix := rows[n], EnvPrefix(rows[n].name);
      if row.baseUrl.None? then Looked(rows[..n], held, name)
      else if name == prefix + API_KEY then KeyRead(row, key => Looked(rows[..n], held, key))
      else if name == prefix + MODEL then OrElse(row.model, "")
      else if name == prefix + BASE_URL then row.baseUrl.value
      else Looked(rows[..n], held, name)
  }

  lemma BoundIs(row: Endpoint, env: Environment, name: string)
    requires row.baseUrl.Some?
    ensures var prefix := EnvPrefix(row.name);
            ValueOf(Bound(row, env), name) ==
            if name == prefix + API_KEY then KeyRead(row, key => ValueOf(env, key))
            else if name == prefix + MODEL then OrElse(row.model, "")
            else if name == prefix + BASE_URL then row.baseUrl.value
            else ValueOf(env, name)
  {
    hide EnvPrefix;
    NamesAreApart(EnvPrefix(row.name), EnvPrefix(row.name));
  }

  lemma BoundLast(rows: seq<Endpoint>, row: Endpoint, env: Environment)
    ensures BoundAll(rows + [row], env) == Bound(row, BoundAll(rows, env))
  {
    hide Bound;
    BoundInTwo(rows, [row], env);
    assert [row][1..] == [];
    assert BoundAll([row], BoundAll(rows, env)) == BoundAll([], Bound(row, BoundAll(rows, env)));
  }

  /** The environment a rendering leaves, name by name: the last row that exports a name decides it. */
  lemma {:induction false} LastExportDecides(rows: seq<Endpoint>, held: Environment, name: string)
    ensures ValueOf(BoundAll(rows, held), name) == Looked(rows, held, name)
    decreases |rows|
  {
    if rows != [] {
      var n := |rows| - 1;
      var row, before := rows[n], BoundAll(rows[..n], held);
      assert rows == rows[..n] + [row];
      BoundLast(rows[..n], row, held);
      LastExportDecides(rows[..n], held, name);
      if row.apiKeyEnv.Some? {
        LastExportDecides(rows[..n], held, row.apiKeyEnv.value);
      }
      hide BoundAll, EnvPrefix, ValueOf;
      if row.baseUrl.Some? {
        BoundIs(row, before, name);
      } else {
        assert BoundAll(rows, held) == before by { BoundNothing(row, before); }
      }
    }
  }

  lemma BoundNothing(row: Endpoint, env: Environment)
    ensures row.baseUrl.None? ==> Bound(row, env) == env
  {
  }

  /** What a consumer of one row reads: its URL, its model or nothing, and the key its reader held under
      the name the row refers to. */
  predicate Holds(env: Environment, row: Endpoint, held: Environment) {
    && row.baseUrl.Some?
    && var prefix := EnvPrefix(row.name);
    && prefix + BASE_URL in env && env[prefix + BASE_URL] == row.baseUrl.value
    && prefix + MODEL in env && env[prefix + MODEL] == OrElse(row.model, "")
    && prefix + API_KEY in env
    && env[prefix + API_KEY] == Wanted(row, held)
  }

  /** The key a row refers to, as its reader holds it; nothing when it refers to none. */
  function Wanted(row: Endpoint, held: Environment): string {
    if row.apiKeyEnv.Some? then ValueOf(held, row.apiKeyEnv.value) else ""
  }

  /** No row from `i` on exports what row `i` does, but row `i`; and none before exports the key it
      refers to, nor does it export that name itself before it refers to it. */
  predicate Apart(rows: seq<Endpoint>, i: nat)
    requires i < |rows|
  {
    && (forall j :: i < j < |rows| && rows[j].baseUrl.Some? ==> EnvPrefix(rows[j].name) != EnvPrefix(rows[i].name))
    && (rows[i].apiKeyEnv.Some? ==>
          && (forall j :: 0 <= j < i ==> !Exports(rows[j], rows[i].apiKeyEnv.value))
          && rows[i].apiKeyEnv.value != EnvPrefix(rows[i].name) + BASE_URL
          && rows[i].apiKeyEnv.value != EnvPrefix(rows[i].name) + MODEL)
  }

  lemma RowHolds(row: Endpoint, env: Environment, held: Environment)
    requires row.baseUrl.Some?
    requires row.apiKeyEnv.Some? ==>
               && ValueOf(env, row.apiKeyEnv.value) == ValueOf(held, row.apiKeyEnv.value)
               && row.apiKeyEnv.value != EnvPrefix(row.name) + BASE_URL
               && row.apiKeyEnv.value != EnvPrefix(row.name) + MODEL
    ensures Holds(Bound(row, env), row, held)
  {
    hide EnvPrefix;
    NamesAreApart(EnvPrefix(row.name), EnvPrefix(row.name));
  }

  lemma LaterRowsKeepAName(rows: seq<Endpoint>, prefix: string, suffix: string, env: Environment)
    requires forall j :: 0 <= j < |rows| && rows[j].baseUrl.Some? ==> EnvPrefix(rows[j].name) != prefix
    requires suffix in [BASE_URL, MODEL, API_KEY] && prefix + suffix in env
    ensures prefix + suffix in BoundAll(rows, env) && BoundAll(rows, env)[prefix + suffix] == env[prefix + suffix]
  {
    hide EnvPrefix, BoundAll;
    forall j | 0 <= j < |rows|
      ensures !Exports(rows[j], prefix + suffix)
    {
      NamesAreApart(EnvPrefix(rows[j].name), prefix);
      NamesAreApart(prefix, EnvPrefix(rows[j].name));
    }
    OnlyExportsChange(rows, env, prefix + suffix);
  }

  lemma LaterRowsKeep(rows: seq<Endpoint>, row: Endpoint, env: Environment, held: Environment)
    requires forall j :: 0 <= j < |rows| && rows[j].baseUrl.Some? ==> EnvPrefix(rows[j].name) != EnvPrefix(row.name)
    requires Holds(env, row, held)
    ensures Holds(BoundAll(rows, env), row, held)
  {
    hide EnvPrefix, BoundAll, ValueOf;
    var prefix := EnvPrefix(row.name);
    LaterRowsKeepAName(rows, prefix, BASE_URL, env);
    LaterRowsKeepAName(rows, prefix, MODEL, env);
    LaterRowsKeepAName(rows, prefix, API_KEY, env);
  }

  lemma {:induction false} BoundInTwo(before: seq<Endpoint>, after: seq<Endpoint>, env: Environment)
    ensures BoundAll(before + after, env) == BoundAll(after, BoundAll(before, env))
  {
    if before == [] {
      assert before + after == after;
    } else {
      assert (before + after)[1..] == before[1..] + after;
      BoundInTwo(before[1..], after, Bound(before[0], env));
    }
  }

  /** Evaluated, the rendering binds for every row that has a URL exactly its URL, its model and the key
      it refers to, whatever characters these hold; and changes no name that no row exports. */
  lemma EveryRowIsBound(rows: seq<Endpoint>, held: Environment, i: nat)
    requires forall j :: 0 <= j < |rows| ==> Readable(rows[j])
    requires i < |rows| && rows[i].baseUrl.Some? && Apart(rows, i)
    ensures Evaluated(RenderedAll(rows), held).Some? && Holds(Evaluated(RenderedAll(rows), held).value, rows[i], held)
  {
    hide Readable, Rendered, RenderedAll, Evaluated, Bound, BoundAll, EnvPrefix, Holds, ValueOf;
    RenderingEvaluates(rows, held);
    var row, before, after := rows[i], rows[..i], rows[i + 1..];
    var env := BoundAll(before, held);
    if row.apiKeyEnv.Some? {
      OnlyExportsChange(before, held, row.apiKeyEnv.value);
    }
    RowHolds(row, env, held);
    LaterRowsKeep(after, row, Bound(row, env), held);
    assert rows == before + ([row] + after);
    BoundInTwo(before, [row] + after, held);
    BoundFirst(row, after, env);
  }

  lemma BoundFirst(row: Endpoint, after: seq<Endpoint>, env: Environment)
    ensures BoundAll([row] + after, env) == BoundAll(after, Bound(row, env))
  {
    assert ([row] + after)[1..] == after;
  }

  lemma NothingElseIsBound(rows: seq<Endpoint>, held: Environment, name: string)
    requires forall j :: 0 <= j < |rows| ==> Readable(rows[j]) && !Exports(rows[j], name)
    ensures Evaluated(RenderedAll(rows), held).Some?
    ensures name in Evaluated(RenderedAll(rows), held).value <==> name in held
    ensures ValueOf(Evaluated(RenderedAll(rows), held).value, name) == ValueOf(held, name)
  {
    hide Readable, Exports, Evaluated, BoundAll, RenderedAll, ValueOf;
    RenderingEvaluates(rows, held);
    OnlyExportsChange(rows, held, name);
  }

  /** Two rows whose names make one prefix: the earlier row's URL is lost. */
  lemma ASharedPrefixLosesARow(held: Environment)
    ensures var a := Endpoint("a-b", Tunnel, None, None, Some("1"), None, None);
            var b := Endpoint("a.b", Tunnel, None, None, Some("2"), None, None);
            Evaluated(RenderedAll([a, b]), held).Some? && !Holds(Evaluated(RenderedAll([a, b]), held).value, a, held)
  {
    var a := Endpoint("a-b", Tunnel, None, None, Some("1"), None, None);
    var b := Endpoint("a.b", Tunnel, None, None, Some("2"), None, None);
    hide Rendered, RenderedAll, Evaluated, Bound, BoundAll, ValueOf;
    SamePrefix();
    EveryRowIsBound([a, b], held, 1);
  }

  lemma SamePrefix()
    ensures EnvPrefix("a-b") == EnvPrefix("a.b")
  {
    assert Uppered("a-b") == Uppered("a.b");
  }

  /** What starts like no line of the part read here is not read. */
  lemma NotACommand(script: string, env: Environment)
    requires script != "" && script[0] !in "\n#e \t"
    ensures Evaluated(script, env) == None
  {
    assert EXPORT[0] == 'e';
    assert script[0] != 'e';
  }

  /** A remark on a row whose name holds a newline is not one line: what follows the newline, and any blanks,
      is read as a command, and the rendering is read no further. */
  lemma ANewlineEndsTheRemark(row: Endpoint, head: string, blanks: string, tail: string, rest: string,
                              env: Environment)
    requires row.baseUrl.None? && row.name == head + "\n" + blanks + tail && OneLine(head)
    requires forall i :: 0 <= i < |blanks| ==> IsBlank(blanks[i])
    requires tail != "" && tail[0] !in "\n#e \t"
    ensures Evaluated(Rendered(row) + rest, env) == None
  {
    hide Evaluated, Said;
    var said := Said(row) + "\n" + rest;
    OneLineBoth(" ", head);
    assert Rendered(row) + rest == "#" + (" " + head) + "\n" + (blanks + (tail + said));
    CommentBindsNothing(" " + head, blanks + (tail + said), env);
    BlanksSkipped(blanks, tail + said, env);
    NotACommand(tail + said, env);
  }

  // ---- Which rows a consumer finds ----

  /** `j` is the last row that exports under a prefix. */
  predicate LastUnder(rows: seq<Endpoint>, prefix: string, j: nat) {
    && j < |rows| && rows[j].baseUrl.Some? && EnvPrefix(rows[j].name) == prefix
    && forall l :: j < l < |rows| && rows[l].baseUrl.Some? ==> EnvPrefix(rows[l].name) != prefix
  }

  /** Every row with a URL has one. */
  lemma {:induction false} SomeRowIsLast(rows: seq<Endpoint>, i: nat) returns (j: nat)
    requires i < |rows| && rows[i].baseUrl.Some?
    ensures i <= j && LastUnder(rows, EnvPrefix(rows[i].name), j)
    decreases |rows|
  {
    hide EnvPrefix;
    var n := |rows| - 1;
    if rows[n].baseUrl.Some? && EnvPrefix(rows[n].name) == EnvPrefix(rows[i].name) {
      j := n;
    } else {
      j := SomeRowIsLast(rows[..n], i);
    }
  }

  /** What the names of a prefix hold in the end is what the last row under it says, whatever came before:
      its URL, its model, and what its reference reads of the rows before it. */
  lemma {:induction false} LastUnderDecides(rows: seq<Endpoint>, held: Environment, prefix: string, j: nat)
    requires LastUnder(rows, prefix, j)
    ensures Looked(rows, held, prefix + BASE_URL) == rows[j].baseUrl.value
    ensures Looked(rows, held, prefix + MODEL) == OrElse(rows[j].model, "")
    ensures Looked(rows, held, prefix + API_KEY) == KeyRead(rows[j], key => Looked(rows[..j], held, key))
    decreases |rows|
  {
    hide EnvPrefix, KeyRead;
    var n := |rows| - 1;
    var other := EnvPrefix(rows[n].name);
    NamesAreApart(prefix, other);
    NamesAreApart(other, prefix);
    if j < n {
      assert rows[..n][..j] == rows[..j];
      LastUnderDecides(rows[..n], held, prefix, j);
    }
  }

  lemma {:induction false} NamesStayBound(rows: seq<Endpoint>, env: Environment, name: string)
    requires name in env
    ensures name in BoundAll(rows, env)
  {
    if rows != [] {
      NamesStayBound(rows[1..], Bound(rows[0], env), name);
    }
  }

  /** The three names a row exports are bound in the end. */
  lemma ExportedNamesAreBound(rows: seq<Endpoint>, held: Environment, j: nat)
    requires j < |rows| && rows[j].baseUrl.Some?
    ensures var prefix, env := EnvPrefix(rows[j].name), BoundAll(rows, held);
            prefix + BASE_URL in env && prefix + MODEL in env && prefix + API_KEY in env
  {
    hide EnvPrefix, BoundAll;
    var prefix := EnvPrefix(rows[j].name);
    var before, after := BoundAll(rows[..j], held), rows[j + 1..];
    var env := Bound(rows[j], before);
    assert rows == rows[..j] + ([rows[j]] + after);
    BoundInTwo(rows[..j], [rows[j]] + after, held);
    BoundFirst(rows[j], after, before);
    NamesStayBound(after, env, prefix + BASE_URL);
    NamesStayBound(after, env, prefix + MODEL);
    NamesStayBound(after, env, prefix + API_KEY);
  }

  /** A row with a URL is found by its consumer as it stands, whatever is evaluated before and after it, if
      and only if the last row under its prefix states the same URL and the same model, and that row's
      reference reads what the consumer's shell held under the name this row refers to. */
  lemma ARowIsFoundExactly(rows: seq<Endpoint>, held: Environment, i: nat, j: nat)
    requires forall l :: 0 <= l < |rows| ==> Readable(rows[l])
    requires i < |rows| && rows[i].baseUrl.Some? && LastUnder(rows, EnvPrefix(rows[i].name), j)
    ensures Evaluated(RenderedAll(rows), held).Some?
    ensures Holds(Evaluated(RenderedAll(rows), held).value, rows[i], held)
            <==> && rows[j].baseUrl == rows[i].baseUrl && OrElse(rows[j].model, "") == OrElse(rows[i].model, "")
                 && KeyRead(rows[j], key => Looked(rows[..j], held, key)) == Wanted(rows[i], held)
  {
    hide Readable, RenderedAll, Evaluated, BoundAll, EnvPrefix, Looked, KeyRead;
    RenderingEvaluates(rows, held);
    var prefix, env := EnvPrefix(rows[i].name), BoundAll(rows, held);
    LastUnderDecides(rows, held, prefix, j);
    LastExportDecides(rows, held, prefix + BASE_URL);
    LastExportDecides(rows, held, prefix + MODEL);
    LastExportDecides(rows, held, prefix + API_KEY);
    ExportedNamesAreBound(rows, held, j);
  }
}
