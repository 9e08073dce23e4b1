/**
 * The part of Python's `str.format` that fills the user-message template with
 * the keyword arguments `query` and `answer`
 * (backend/core/answer_and_reflect/respond_score.py, `self_reflect_concisely`).
 *
 * `{{` and `}}` stand for literal braces; `{query}` and `{answer}` are
 * replaced.  After an opening brace the field name runs up to the first
 * `}`, `:`, `!`, `{` or `[`.  A `{` that ends the template, a name that
 * never ends, a `{` inside the name and a lone `}` are the source's
 * ValueErrors; any other plain name is a
 * KeyError or IndexError there.  Conversions (`!r`), format specs (`:>10`),
 * attribute access (`.x`) and indexing (`[0]`) are outside this model and
 * reported as such.
 */
module PromptTemplate {
  import opened Wrappers

  datatype FormatError =
    | SingleOpeningBrace          // "Single '{' encountered in format string"
    | UnclosedField               // "expected '}' before end of string"
    | SingleClosingBrace          // "Single '}' encountered in format string"
    | UnexpectedBraceInField      // "unexpected '{' in field name"
    | UnsupportedField(name: string)  // KeyError / IndexError: not a keyword argument
    | OutsideModel(name: string)  // a conversion, format spec, attribute or index follows the name

  /** The characters that end a field name. */
  predicate IsFieldStop(c: char) {
    c == '}' || c == ':' || c == '!' || c == '{' || c == '['
  }

  /** The index of the first character of `s` that ends a field name, if any. */
  function FieldEnd(s: string): (r: Option<nat>)
    ensures r.Some? ==> r.value < |s| && IsFieldStop(s[r.value])
    ensures r.Some? ==> forall i :: 0 <= i < r.value ==> !IsFieldStop(s[i])
    ensures r.None? ==> forall i :: 0 <= i < |s| ==> !IsFieldStop(s[i])
  {
    if s == [] then None
    else if IsFieldStop(s[0]) then Some(0)
    else
      match FieldEnd(s[1..])
      case None => None
      case Some(i) => Some(i + 1)
  }

  /** The first stop character is where FieldEnd finds it. */
  lemma {:induction false} FieldEndIsFirst(s: string, j: nat)
    requires j < |s| && IsFieldStop(s[j])
    requires forall i :: 0 <= i < j ==> !IsFieldStop(s[i])
    ensures FieldEnd(s) == Some(j)
    decreases j
  {
    if j > 0 {
      assert !IsFieldStop(s[0]);
      FieldEndIsFirst(s[1..], j - 1);
    }
  }

  /** Text in which no character ends a field name. */
  predicate PlainName(name: string) {
    forall i :: 0 <= i < |name| ==> !IsFieldStop(name[i])
  }

  /** `text` placed in front of a formatted result; errors pass through. */
  function Prepend(text: string, r: Result<string, FormatError>): Result<string, FormatError> {
    match r
    case Success(s) => Success(text + s)
    case Failure(e) => Failure(e)
  }

  /** `template.format(query=query, answer=answer)`. */
  function Format(template: string, query: string, answer: string): (r: Result<string, FormatError>)
    ensures r.Failure? ==> '{' in template || '}' in template
    decreases |template|
  {
    if template == [] then Success([])
    else if template[0] == '{' then
      if |template| == 1 then Failure(SingleOpeningBrace)
      else if template[1] == '{' then Prepend("{", Format(template[2..], query, answer))
      else
        match FieldEnd(template[1..])
        case None => Failure(UnclosedField)
        case Some(j) =>
          var name := template[1..j + 1];
          var stop := template[j + 1];
          var rest := template[j + 2..];
          if stop == '{' then Failure(UnexpectedBraceInField)
          else if stop != '}' || '.' in name then Failure(OutsideModel(name))
          else if name == "query" then Prepend(query, Format(rest, query, answer))
          else if name == "answer" then Prepend(answer, Format(rest, query, answer))
          else Failure(UnsupportedField(name))
    else if template[0] == '}' then
      if |template| >= 2 && template[1] == '}' then Prepend("}", Format(template[2..], query, answer))
      else Failure(SingleClosingBrace)
    else
      var r := Format(template[1..], query, answer);
      assert r.Failure? ==> '{' in template[1..] || '}' in template[1..];
      Prepend([template[0]], r)
  }

  /** Literal text as template text: every brace doubled. */
  function Escape(text: string): (r: string)
    ensures |r| >= |text|
  {
    if text == [] then []
    else if text[0] == '{' || text[0] == '}' then [text[0], text[0]] + Escape(text[1..])
    else [text[0]] + Escape(text[1..])
  }

  lemma PrependAssociates(p: string, q: string, r: Result<string, FormatError>)
    ensures Prepend(p, Prepend(q, r)) == Prepend(p + q, r)
  {
    match r
    case Success(s) => assert p + (q + s) == (p + q) + s;
    case Failure(_) =>
  }

  /** Escaped text formats back to itself in front of whatever follows it. */
  lemma {:induction false} FormatEscapedPrefix(text: string, rest: string, query: string, answer: string)
    ensures Format(Escape(text) + rest, query, answer) == Prepend(text, Format(rest, query, answer))
    decreases |text|
  {
    if text == [] {
      assert Escape(text) + rest == rest;
      match Format(rest, query, answer)
      case Success(s) => assert text + s == s;
      case Failure(_) =>
    } else {
      var t := Escape(text) + rest;
      var tail := Escape(text[1..]) + rest;
      if text[0] == '{' || text[0] == '}' {
        assert t == [text[0], text[0]] + tail;
        assert t[2..] == tail;
      } else {
        assert t == [text[0]] + tail;
        assert t[1..] == tail;
      }
      FormatEscapedPrefix(text[1..], rest, query, answer);
      PrependAssociates([text[0]], text[1..], Format(rest, query, answer));
      assert [text[0]] + text[1..] == text;
    }
  }

  /** Formatting is the inverse of escaping. */
  lemma FormatEscaped(text: string, query: string, answer: string)
    ensures Format(Escape(text), query, answer) == Success(text)
  {
    FormatEscapedPrefix(text, [], query, answer);
    assert Escape(text) + [] == Escape(text);
    assert text + [] == text;
  }

  /** A template without braces is sent as it is. */
  lemma {:induction false} FormatPlain(template: string, query: string, answer: string)
    requires '{' !in template && '}' !in template
    ensures Format(template, query, answer) == Success(template)
  {
    EscapeWithoutBraces(template);
    FormatEscaped(template, query, answer);
  }

  lemma {:induction false} EscapeWithoutBraces(text: string)
    requires '{' !in text && '}' !in text
    ensures Escape(text) == text
  {
    if text != [] {
      assert text == [text[0]] + text[1..];
      EscapeWithoutBraces(text[1..]);
    }
  }

  /** A `{query}` field is replaced by the query. */
  lemma FormatQueryField(rest: string, query: string, answer: string)
    ensures Format("{query}" + rest, query, answer) == Prepend(query, Format(rest, query, answer))
  {
    var t := "{query}" + rest;
    assert t[1..] == "query}" + rest;
    assert t[1..][..5] == "query";
    FieldEndIsFirst(t[1..], 5);
    assert t[1..6] == "query";
    assert t[7..] == rest;
  }

  /** An `{answer}` field is replaced by the answer. */
  lemma FormatAnswerField(rest: string, query: string, answer: string)
    ensures Format("{answer}" + rest, query, answer) == Prepend(answer, Format(rest, query, answer))
  {
    var t := "{answer}" + rest;
    assert t[1..] == "answer}" + rest;
    assert t[1..][..6] == "answer";
    FieldEndIsFirst(t[1..], 6);
    assert t[1..7] == "answer";
    assert t[8..] == rest;
  }

  /**
   * A template of literal text around one query field and one answer field
   * reads back the text with the query and the answer put in their places.
   */
  lemma FormatQueryThenAnswer(before: string, between: string, after: string, query: string, answer: string)
    ensures Format(Escape(before) + "{query}" + Escape(between) + "{answer}" + Escape(after), query, answer)
            == Success(before + query + between + answer + after)
  {
    var mid := "{answer}" + Escape(after);
    var second := Escape(between) + mid;
    var first := "{query}" + second;
    assert Format(mid, query, answer) == Success(answer + after) by {
      FormatAnswerField(Escape(after), query, answer);
      FormatEscaped(after, query, answer);
    }
    assert Format(second, query, answer) == Success(between + (answer + after)) by {
      FormatEscapedPrefix(between, mid, query, answer);
    }
    assert Format(first, query, answer) == Success(query + (between + (answer + after))) by {
      FormatQueryField(second, query, answer);
    }
    assert Format(Escape(before) + first, query, answer) == Success(before + (query + (between + (answer + after)))) by {
      FormatEscapedPrefix(before, first, query, answer);
    }
    JoinAssociates(Escape(before), "{query}", Escape(between), "{answer}", Escape(after));
    JoinAssociates(before, query, between, answer, after);
  }

  /** Five texts joined left to right are the same texts joined right to left. */
  lemma JoinAssociates(a: string, b: string, c: string, d: string, e: string)
    ensures a + b + c + d + e == a + (b + (c + (d + e)))
  {
    assert a + b + c + d + e == (a + b + c) + (d + e);
    assert (a + b + c) + (d + e) == (a + b) + (c + (d + e));
  }

  /** A closing brace that is not doubled is rejected. */
  lemma FormatRejectsSingleClosingBrace(rest: string, query: string, answer: string)
    requires rest == [] || rest[0] != '}'
    ensures Format("}" + rest, query, answer) == Failure(SingleClosingBrace)
  {
    assert ("}" + rest)[0] == '}';
    assert |"}" + rest| >= 2 ==> ("}" + rest)[1] == rest[0];
  }

  /** An opening brace that ends the template is rejected. */
  lemma FormatRejectsSingleOpeningBrace(before: string, query: string, answer: string)
    ensures Format(Escape(before) + "{", query, answer) == Failure(SingleOpeningBrace)
  {
    FormatEscapedPrefix(before, "{", query, answer);
  }

  /** An opening brace whose field name never ends is rejected. */
  lemma FormatRejectsUnclosedField(rest: string, query: string, answer: string)
    requires rest != [] && PlainName(rest)
    ensures Format("{" + rest, query, answer) == Failure(UnclosedField)
  {
    var t := "{" + rest;
    assert t[1..] == rest;
    assert !IsFieldStop(rest[0]);
  }

  /** A `{` inside a field name is rejected, whatever follows it. */
  lemma FormatRejectsBraceInField(name: string, rest: string, query: string, answer: string)
    requires name != [] && PlainName(name)
    ensures Format("{" + name + "{" + rest, query, answer) == Failure(UnexpectedBraceInField)
  {
    var t := "{" + name + "{" + rest;
    assert t[1..] == name + "{" + rest;
    assert t[1] == name[0];
    FieldEndIsFirst(t[1..], |name|);
    assert t[|name| + 1] == '{';
  }

  /**
   * A field naming something other than `query` and `answer` is rejected
   * with its name.
   */
  lemma FormatRejectsUnknownField(name: string, rest: string, query: string, answer: string)
    requires PlainName(name) && '.' !in name
    requires name != "query" && name != "answer"
    ensures Format("{" + name + "}" + rest, query, answer) == Failure(UnsupportedField(name))
  {
    var t := "{" + name + "}" + rest;
    assert t[1..] == name + "}" + rest;
    assert name != [] ==> t[1] == name[0];
    FieldEndIsFirst(t[1..], |name|);
    assert t[1..|name| + 1] == name;
    assert t[|name| + 1] == '}';
  }
}
