/** A reader for the part of the POSIX shell that a list of exports is written in: POSIX.1-2017, XCU,
    sections 2.2.1 to 2.2.3 (quoting), 2.3 (comments, and blanks before a command) and 2.6.2 (parameter
    expansion). What is outside this part reads as nothing at all. */
module Shell {
  import opened Wrappers
  import opened Text

  type Environment = map<string, string>

  predicate IsUpper(c: char) { 'A' <= c <= 'Z' }

  predicate IsLower(c: char) { 'a' <= c <= 'z' }

  predicate IsLetter(c: char) { IsUpper(c) || IsLower(c) }

  predicate IsNameChar(c: char) { IsLetter(c) || IsDigit(c) || c == '_' }

  /** A name: letters, digits and underscores, not starting with a digit. */
  predicate IsName(s: string) {
    s != "" && !IsDigit(s[0]) && forall i :: 0 <= i < |s| ==> IsNameChar(s[i])
  }

  /** Characters that stand for themselves outside quotes. */
  predicate IsPlain(c: char) { IsNameChar(c) || c in "./:,@%+-" }

  /** What separates words, in the POSIX locale. */
  predicate IsBlank(c: char) { c == ' ' || c == '\t' }

  datatype Quoting = Bare | Single | Double

  /** A word's value, and what follows the word. */
  type Reading = Option<(string, string)>

  function Prefixed(text: string, r: Reading): Reading {
    match r
    case None => None
    case Some((value, rest)) => Some((text + value, rest))
  }

  /** What `${name:-}` is: the variable's value, or nothing when it is unset or empty. */
  function ValueOf(env: Environment, name: string): string {
    if name in env then env[name] else ""
  }

  /** `{name:-}`, after its dollar sign: the name and what follows. */
  function Expansion(s: string): (r: Option<(string, string)>)
    ensures r.Some? ==> |r.value.1| < |s|
  {
    match StripPrefix(s, "{")
    case None => None
    case Some(inner) =>
      match SplitOnce(inner, ':')
      case None => None
      case Some((name, tail)) =>
        match StripPrefix(tail, "-}")
        case None => None
        case Some(rest) => if IsName(name) then Some((name, rest)) else None
  }

  /** One word, from its start to the newline or the end that ends it. */
  function ReadWord(q: Quoting, s: string, env: Environment): (r: Reading)
    ensures r.Some? ==> |r.value.1| <= |s| && (r.value.1 == "" || r.value.1[0] == '\n')
    decreases |s|
  {
    if s == "" then (if q == Bare then Some(("", "")) else None)
    else match q
      case Single =>
        if s[0] == '\'' then ReadWord(Bare, s[1..], env)
        else Prefixed([s[0]], ReadWord(Single, s[1..], env))
      case Double =>
        if s[0] == '\"' then ReadWord(Bare, s[1..], env)
        else if s[0] == '$' then
          match Expansion(s[1..])
          case None => None
          case Some((name, rest)) => Prefixed(ValueOf(env, name), ReadWord(Double, rest, env))
        else if s[0] == '\\' || s[0] == '`' then None
        else Prefixed([s[0]], ReadWord(Double, s[1..], env))
      case Bare =>
        if s[0] == '\n' then Some(("", s))
        else if s[0] == '\'' then ReadWord(Single, s[1..], env)
        else if s[0] == '\"' then ReadWord(Double, s[1..], env)
        else if s[0] == '\\' then
          if |s| < 2 then None
          else if s[1] == '\n' then ReadWord(Bare, s[2..], env)
          else Prefixed([s[1]], ReadWord(Bare, s[2..], env))
        else if IsPlain(s[0]) then Prefixed([s[0]], ReadWord(Bare, s[1..], env))
        else None
  }

  const EXPORT := "export "

  /** `name=word` after `export`: the name, the word's value, and what follows. */
  function ReadAssignment(s: string, env: Environment): (r: Option<(string, string, string)>)
    ensures r.Some? ==> |r.value.2| < |s| && (r.value.2 == "" || r.value.2[0] == '\n')
  {
    match SplitOnce(s, '=')
    case None => None
    case Some((name, word)) =>
      if !IsName(name) then None
      else match ReadWord(Bare, word, env)
        case None => None
        case Some((value, rest)) => Some((name, value, rest))
  }

  /** The environment a script leaves, or nothing when part of it is not read here. */
  function Evaluated(script: string, env: Environment): Option<Environment>
    decreases |script|
  {
    if script == "" then Some(env)
    else if script[0] == '\n' || IsBlank(script[0]) then Evaluated(script[1..], env)
    else if script[0] == '#' then
      match SplitOnce(script, '\n')
      case None => Some(env)
      case Some((_, rest)) => Evaluated(rest, env)
    else match StripPrefix(script, EXPORT)
      case None => None
      case Some(assignment) =>
        match ReadAssignment(assignment, env)
        case None => None
        case Some((name, value, rest)) => Evaluated(rest, env[name := value])
  }

  // ---- What is written one way reads one way ----

  lemma NameLacks(name: string)
    requires IsName(name)
    ensures '=' !in name && ':' !in name && '\n' !in name
  {
  }

  lemma AssignmentReads(name: string, word: string, value: string, rest: string, env: Environment)
    requires IsName(name) && ReadWord(Bare, word, env) == Some((value, rest))
    ensures ReadAssignment(name + "=" + word, env) == Some((name, value, rest))
  {
    hide ReadWord;
    NameLacks(name);
    SplitOnceIs(name + "=" + word, '=', name, word);
  }

  lemma NewlineSkipped(rest: string, env: Environment)
    ensures Evaluated("\n" + rest, env) == Evaluated(rest, env)
  {
    assert ("\n" + rest)[1..] == rest;
  }

  /** An export of a word that reads as a value binds the name to the value and goes on. */
  lemma ExportBinds(name: string, word: string, value: string, rest: string, env: Environment)
    requires IsName(name) && ReadWord(Bare, word + "\n" + rest, env) == Some((value, "\n" + rest))
    ensures Evaluated(EXPORT + name + "=" + word + "\n" + rest, env) == Evaluated(rest, env[name := value])
  {
    hide ReadWord, ReadAssignment, StripPrefix, SplitOnce, IsName;
    var assignment := name + "=" + (word + "\n" + rest);
    var script := EXPORT + name + "=" + word + "\n" + rest;
    assert script == EXPORT + assignment;
    StripPrefixIs(EXPORT, assignment);
    AssignmentReads(name, word + "\n" + rest, value, "\n" + rest, env);
    assert script[0] == 'e';
    NewlineSkipped(rest, env[name := value]);
  }

  /** A comment line changes nothing. */
  lemma CommentBindsNothing(text: string, rest: string, env: Environment)
    requires '\n' !in text
    ensures Evaluated("#" + text + "\n" + rest, env) == Evaluated(rest, env)
  {
    var script := "#" + text + "\n" + rest;
    SplitOnceIs(script, '\n', "#" + text, rest);
  }

  /** `"${name:-}"`, the way a script refers to what its reader already holds. */
  function Reference(name: string): string { "\"${" + name + ":-}\"" }

  lemma ReferenceReads(name: string, rest: string, env: Environment)
    requires IsName(name) && (rest == "" || rest[0] == '\n')
    ensures ReadWord(Bare, Reference(name) + rest, env) == Some((ValueOf(env, name), rest))
  {
    hide Expansion;
    var inner := "{" + name + ":-}" + ("\"" + rest);
    var quoted := "$" + inner;
    var word := Reference(name) + rest;
    assert word == "\"" + quoted;
    assert word[1..] == quoted && quoted[1..] == inner;
    ExpansionReads(name, "\"" + rest);
    assert ("\"" + rest)[1..] == rest;
    assert ReadWord(Bare, rest, env) == Some(("", rest));
    assert ReadWord(Double, "\"" + rest, env) == Some(("", rest));
    assert ValueOf(env, name) + "" == ValueOf(env, name);
    assert ReadWord(Double, quoted, env) == Some((ValueOf(env, name), rest));
  }

  lemma ExpansionReads(name: string, rest: string)
    requires IsName(name)
    ensures Expansion("{" + name + ":-}" + rest) == Some((name, rest))
  {
    var tail := "-}" + rest;
    var inner := name + ":" + tail;
    assert "{" + name + ":-}" + rest == "{" + inner;
    StripPrefixIs("{", inner);
    NameLacks(name);
    SplitOnceIs(inner, ':', name, tail);
    StripPrefixIs("-}", rest);
  }

  // ---- Lines that do nothing ----

  /** A line of blanks, or a comment, with or without blanks before it. */
  predicate Inert(line: string) { line == "" || line[0] == '#' || (IsBlank(line[0]) && Inert(line[1..])) }

  predicate AllInert(lines: seq<string>) {
    forall i :: 0 <= i < |lines| ==> Inert(lines[i])
  }

  lemma {:induction false} BlanksSkipped(blanks: string, rest: string, env: Environment)
    requires forall i :: 0 <= i < |blanks| ==> IsBlank(blanks[i])
    ensures Evaluated(blanks + rest, env) == Evaluated(rest, env)
  {
    if blanks == "" {
      assert blanks + rest == rest;
    } else {
      assert (blanks + rest)[1..] == blanks[1..] + rest;
      BlanksSkipped(blanks[1..], rest, env);
    }
  }

  lemma BlankSkipped(line: string, rest: string, env: Environment)
    requires line != "" && IsBlank(line[0])
    ensures Evaluated(line + "\n" + rest, env) == Evaluated(line[1..] + "\n" + rest, env)
  {
    assert (line + "\n" + rest)[1..] == line[1..] + "\n" + rest;
  }

  lemma {:induction false} InertLineBindsNothing(line: string, rest: string, env: Environment)
    requires Inert(line) && '\n' !in line
    ensures Evaluated(line + "\n" + rest, env) == Evaluated(rest, env)
  {
    if line == "" {
      assert line + "\n" + rest == "\n" + rest;
      NewlineSkipped(rest, env);
    } else if line[0] == '#' {
      assert line == "#" + line[1..];
      CommentBindsNothing(line[1..], rest, env);
    } else {
      BlankSkipped(line, rest, env);
      InertLineBindsNothing(line[1..], rest, env);
    }
  }

  lemma {:induction false} InertLinesBindNothing(text: string, rest: string, env: Environment)
    requires AllInert(Split(text, '\n'))
    ensures Evaluated(text + "\n" + rest, env) == Evaluated(rest, env)
    decreases |text|
  {
    hide Evaluated, Inert;
    var lines := Split(text, '\n');
    assert Inert(lines[0]);
    match SplitOnce(text, '\n') {
      case None =>
        InertLineBindsNothing(text, rest, env);
      case Some((line, tail)) =>
        assert lines == [line] + Split(tail, '\n');
        assert forall i :: 0 <= i < |lines| - 1 ==> Split(tail, '\n')[i] == lines[i + 1];
        InertLinesBindNothing(tail, rest, env);
        InertLineBindsNothing(line, tail + "\n" + rest, env);
        assert text + "\n" + rest == line + "\n" + (tail + "\n" + rest);
    }
  }

  /** A name that is bound stays bound. */
  lemma {:induction false} NamesStay(script: string, env: Environment)
    ensures Evaluated(script, env).Some? ==> env.Keys <= Evaluated(script, env).value.Keys
    decreases |script|
  {
    if script != "" {
      if script[0] == '\n' || IsBlank(script[0]) {
        NamesStay(script[1..], env);
      } else if script[0] == '#' {
        if SplitOnce(script, '\n').Some? {
          NamesStay(SplitOnce(script, '\n').value.1, env);
        }
      } else if StripPrefix(script, EXPORT).Some? {
        var read := ReadAssignment(StripPrefix(script, EXPORT).value, env);
        if read.Some? {
          NamesStay(read.value.2, env[read.value.0 := read.value.1]);
        }
      }
    }
  }

  lemma ACommandBinds(script: string)
    requires script != "" && script[0] != '\n' && !IsBlank(script[0]) && script[0] != '#'
    ensures Evaluated(script, map[]) != Some(map[])
  {
    hide ReadAssignment, StripPrefix, SplitOnce;
    var none: Environment := map[];
    if StripPrefix(script, EXPORT).Some? {
      var read := ReadAssignment(StripPrefix(script, EXPORT).value, none);
      if read.Some? {
        var (name, value, rest) := read.value;
        NamesStay(rest, none[name := value]);
        assert Evaluated(script, none) == Evaluated(rest, none[name := value]);
        assert name in none[name := value];
      }
    }
  }

  /** Any other line binds a name or is not read. */
  lemma {:induction false} ALineBinds(line: string, rest: string)
    requires !Inert(line) && '\n' !in line
    ensures Evaluated(line + "\n" + rest, map[]) != Some(map[])
  {
    hide Evaluated;
    if IsBlank(line[0]) {
      BlankSkipped(line, rest, map[]);
      ALineBinds(line[1..], rest);
    } else {
      ACommandBinds(line + "\n" + rest);
    }
  }

  /** Only blank lines and comments leave an empty environment empty. */
  lemma {:induction false} OnlyInertLinesBindNothing(text: string)
    requires Evaluated(text + "\n", map[]) == Some(map[])
    ensures AllInert(Split(text, '\n'))
    decreases |text|
  {
    hide Evaluated;
    match SplitOnce(text, '\n') {
      case None =>
        assert text + "\n" + "" == text + "\n";
        if !Inert(text) {
          ALineBinds(text, "");
        }
      case Some((line, tail)) =>
        assert text + "\n" == line + "\n" + (tail + "\n");
        if Inert(line) {
          InertLineBindsNothing(line, tail + "\n", map[]);
          OnlyInertLinesBindNothing(tail);
          var lines := Split(text, '\n');
          assert lines == [line] + Split(tail, '\n');
        } else {
          ALineBinds(line, tail + "\n");
        }
    }
  }

  // ---- What the reader reads ----

  /** Character by character. Outside quotes a name's characters and a few marks stand for themselves, a backslash
      for what follows it, a quote opens its kind, and the line's end ends the word; anything else is not read.
      In single quotes all but the closing one stand for themselves; in double quotes all but the closing one, a
      dollar sign, a backslash and a backquote. */
  lemma WordsRead(c: char, s: string, env: Environment)
    ensures c == '\n' ==> ReadWord(Bare, [c] + s, env) == Some(("", [c] + s))
    ensures c == '\'' ==> ReadWord(Bare, [c] + s, env) == ReadWord(Single, s, env)
    ensures c == '\"' ==> ReadWord(Bare, [c] + s, env) == ReadWord(Double, s, env)
    ensures 'a' <= c <= 'z' || 'A' <= c <= 'Z' || '0' <= c <= '9' || c in "_./:,@%+-" ==>
              ReadWord(Bare, [c] + s, env) == Prefixed([c], ReadWord(Bare, s, env))
    ensures !('a' <= c <= 'z' || 'A' <= c <= 'Z' || '0' <= c <= '9') && c !in "_./:,@%+-\n'\"\\" ==>
              ReadWord(Bare, [c] + s, env) == None
    ensures ReadWord(Single, [c] + s, env) ==
            if c == '\'' then ReadWord(Bare, s, env) else Prefixed([c], ReadWord(Single, s, env))
    ensures c == '\"' ==> ReadWord(Double, [c] + s, env) == ReadWord(Bare, s, env)
    ensures c == '\\' || c == '`' ==> ReadWord(Double, [c] + s, env) == None
    ensures c !in "\"$\\`" ==> ReadWord(Double, [c] + s, env) == Prefixed([c], ReadWord(Double, s, env))
  {
    var word := [c] + s;
    assert word[0] == c && word[1..] == s;
  }

  /** A backslash outside quotes: the line goes on past a line's end, and any other character stands for itself. */
  lemma BackslashReads(c: char, s: string, env: Environment)
    ensures ReadWord(Bare, ['\\', c] + s, env) ==
            if c == '\n' then ReadWord(Bare, s, env) else Prefixed([c], ReadWord(Bare, s, env))
    ensures ReadWord(Bare, "\\", env) == None
  {
    var word := ['\\', c] + s;
    assert word[0] == '\\' && word[1] == c && word[2..] == s;
  }

  /** Line by line: a line's end, a space and a tab are passed over, and a comment up to its line's end or the
      script's. */
  lemma LinesRead(text: string, env: Environment)
    ensures Evaluated(" " + text, env) == Evaluated(text, env) == Evaluated("\t" + text, env)
    ensures '\n' !in text ==> Evaluated("#" + text, env) == Some(env)
    ensures Evaluated("", env) == Some(env)
  {
    assert (" " + text)[1..] == text && ("\t" + text)[1..] == text;
  }
}
