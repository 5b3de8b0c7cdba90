/** render.go: the `toClassName` template helper and the rendering wrappers
    that turn every template failure into the empty string. */
module Render {
  import opened Wrappers

  // ---------------------------------------------------------------------
  // toClassName = strings.Title(strings.ToLower(s)), over ASCII

  predicate IsAscii(s: string) {
    forall i :: 0 <= i < |s| ==> s[i] < 128 as char
  }

  predicate IsUpper(c: char) { 'A' <= c <= 'Z' }
  predicate IsLower(c: char) { 'a' <= c <= 'z' }
  predicate IsLetter(c: char) { IsUpper(c) || IsLower(c) }

  /** The ASCII characters strings.Title does not treat as word separators:
      letters, digits and '_'. */
  predicate IsWordChar(c: char) { IsLetter(c) || '0' <= c <= '9' || c == '_' }

  function LowerChar(c: char): char {
    if IsUpper(c) then (c as int + 32) as char else c
  }

  function UpperChar(c: char): char {
    if IsLower(c) then (c as int - 32) as char else c
  }

  /** strings.ToLower over ASCII. */
  function ToLower(s: string): (r: string)
    ensures |r| == |s| && forall i :: 0 <= i < |s| ==> r[i] == LowerChar(s[i])
  {
    if s == [] then [] else [LowerChar(s[0])] + ToLower(s[1..])
  }

  /** strings.Title's mapping with `prev` the character before `s`: a
      character right after a separator is upper-cased. */
  function TitleFrom(prev: char, s: string): (r: string)
    ensures |r| == |s|
    decreases |s|
  {
    if s == [] then []
    else [if IsWordChar(prev) then s[0] else UpperChar(s[0])] + TitleFrom(s[0], s[1..])
  }

  /** strings.Title: the first character is treated as following a space. */
  function Title(s: string): string {
    TitleFrom(' ', s)
  }

  /** Position `i` of `s` begins a word: it is first, or follows a character
      that is not a letter, digit or '_'. */
  predicate StartsWord(s: string, i: nat)
    requires i < |s|
  {
    i == 0 || !IsWordChar(s[i - 1])
  }

  /** The toClassName template helper. Every character keeps its place and,
      up to case, its value; a letter is upper-case exactly when it begins a
      word, and lower-case otherwise. */
  function ToClassName(s: string): (r: string)
    requires IsAscii(s)
    ensures |r| == |s|
    ensures forall i :: 0 <= i < |s| ==> LowerChar(r[i]) == LowerChar(s[i])
    ensures forall i :: 0 <= i < |s| && !IsLetter(s[i]) ==> r[i] == s[i]
    ensures forall i :: 0 <= i < |s| && IsLetter(s[i]) ==>
      (if StartsWord(s, i) then IsUpper(r[i]) else IsLower(r[i]))
    ensures IsAscii(r)
  {
    var r := Title(ToLower(s));
    forall i | 0 <= i < |s| ensures r[i] == ClassNameChar(s, i) {
      ClassNameAt(s, i);
    }
    r
  }

  /** What toClassName puts at position `i` of `s`. */
  function ClassNameChar(s: string, i: nat): char
    requires i < |s|
  {
    if StartsWord(s, i) then UpperChar(LowerChar(s[i])) else LowerChar(s[i])
  }

  /** Position `i` of strings.Title's mapping. */
  lemma {:induction false} TitleFromAt(prev: char, s: string, i: nat)
    requires i < |s|
    ensures |TitleFrom(prev, s)| == |s|
    ensures TitleFrom(prev, s)[i] ==
      (if IsWordChar(if i == 0 then prev else s[i - 1]) then s[i] else UpperChar(s[i]))
    decreases |s|
  {
    if i > 0 {
      TitleFromAt(s[0], s[1..], i - 1);
    } else if |s| > 1 {
      TitleFromAt(s[0], s[1..], 0);
    }
  }

  /** strings.Title upper-cases each character that begins a word and keeps
      every other character. */
  lemma TitleAt(s: string)
    ensures |Title(s)| == |s|
    ensures forall i :: 0 <= i < |s| ==>
      Title(s)[i] == if StartsWord(s, i) then UpperChar(s[i]) else s[i]
  {
    forall i | 0 <= i < |s|
      ensures Title(s)[i] == if StartsWord(s, i) then UpperChar(s[i]) else s[i]
    {
      TitleFromAt(' ', s, i);
    }
  }

  /** Upper- and lower-casing do not change whether a character separates words. */
  lemma CaseKeepsWordChar(c: char)
    ensures IsWordChar(LowerChar(c)) == IsWordChar(c)
    ensures IsWordChar(UpperChar(c)) == IsWordChar(c)
  {
  }

  lemma ClassNameAt(s: string, i: nat)
    requires i < |s|
    ensures |Title(ToLower(s))| == |s|
    ensures Title(ToLower(s))[i] == ClassNameChar(s, i)
  {
    TitleFromAt(' ', ToLower(s), i);
    if i > 0 {
      CaseKeepsWordChar(s[i - 1]);
    }
  }

  /** toClassName is idempotent. */
  lemma ToClassNameIdempotent(s: string)
    requires IsAscii(s)
    ensures ToClassName(ToClassName(s)) == ToClassName(s)
  {
    var r := ToClassName(s);
    var rr := ToClassName(r);
    forall i | 0 <= i < |s| ensures rr[i] == r[i] {
      ClassNameAt(s, i);
      ClassNameAt(r, i);
      if i > 0 {
        CaseKeepsWordChar(s[i - 1]);
        CaseKeepsWordChar(LowerChar(s[i - 1]));
        assert IsWordChar(r[i - 1]) == IsWordChar(s[i - 1]);
      }
    }
  }

  // ---------------------------------------------------------------------
  // renderFile / process

  /** A configuration handed to a template: a map over dotted leaf keys, or
      nil when decoding failed. */
  type Vars = Option<map<string, string>>

  /** What ParseFiles returns: the template named after the file's base name. */
  datatype Template = Template(name: string, source: string)

  /** The template library, seen from outside: parsing a file may fail, and
      so may executing a parsed template against a configuration. */
  datatype Engine = Engine(
    parse: string -> Option<Template>,
    execute: (Template, Vars) -> Option<string>)

  /** process: execute the template; an execution failure is logged and
      yields "", so the caller sees "" exactly when execution failed or
      produced nothing, and otherwise the executed text. */
  function Process(engine: Engine, t: Template, vars: Vars): (r: string)
    ensures r == "" <==> engine.execute(t, vars).None? || engine.execute(t, vars).value == ""
    ensures r != "" ==> engine.execute(t, vars) == Some(r)
  {
    match engine.execute(t, vars)
    case None => ""
    case Some(text) => text
  }

  /** renderFile: parse the file, then process it; a parse failure is logged
      and yields "". The caller sees "" exactly when parsing failed,
      execution failed, or execution succeeded with empty output, and
      cannot tell these apart; a non-empty result is the executed text. */
  function RenderFile(engine: Engine, fileName: string, vars: Vars): (r: string)
    ensures r == "" <==>
      engine.parse(fileName).None? ||
      engine.execute(engine.parse(fileName).value, vars).None? ||
      engine.execute(engine.parse(fileName).value, vars).value == ""
    ensures r != "" ==>
      engine.parse(fileName).Some? && engine.execute(engine.parse(fileName).value, vars) == Some(r)
  {
    match engine.parse(fileName)
    case None => ""
    case Some(t) => Process(engine, t, vars)
  }
}
