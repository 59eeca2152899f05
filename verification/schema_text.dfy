/**
 * What the blanking of module statements and the trim at load time do to the
 * schema text embedded in the system prompt: line structure is kept, and a
 * leading import line disappears.
 */
module SchemaText {
  import opened Text
  import opened SettingsConstants

  /**
   * A schema file that opens with an import line and ends with a line break
   * embeds as its body alone: the import is blanked and `.trim()` drops the
   * line breaks around the body.
   */
  lemma EmbeddedSchemaDropsImport(imp: string, body: string)
    requires IsModuleStatement(imp) && forall i :: 0 <= i < |imp| ==> !IsLineTerminator(imp[i])
    requires StripModuleStatements(body) == body
    requires |body| > 0 && !IsTrimmable(body[0]) && !IsTrimmable(body[|body| - 1])
    ensures EmbeddedSchema(imp + "\n" + body + "\n") == body
  {
    StripImportLine(imp, '\n', body);
    assert imp + "\n" + body + "\n" == imp + ['\n'] + body + ['\n'];
    assert "\n" + body + "\n" == ['\n'] + body + ['\n'];
    TrimLineBreaks(body);
  }

  /** Blanking a leading import line leaves only its line break in front of an already clean body. */
  lemma StripImportLine(imp: string, t: char, body: string)
    requires IsLineTerminator(t)
    requires IsModuleStatement(imp) && forall i :: 0 <= i < |imp| ==> !IsLineTerminator(imp[i])
    requires StripModuleStatements(body) == body
    ensures StripModuleStatements(imp + [t] + body + [t]) == [t] + body + [t]
  {
    var tail := body + [t];
    assert imp + [t] + body + [t] == imp + [t] + tail;
    StripLeadingStatement(imp, t, tail);
    StripCleanLine(body, t);
    assert [t] + tail == [t] + body + [t];
  }

  /** A module statement followed by a line terminator leaves only the terminator. */
  lemma StripLeadingStatement(imp: string, t: char, rest: string)
    requires IsLineTerminator(t)
    requires IsModuleStatement(imp) && forall i :: 0 <= i < |imp| ==> !IsLineTerminator(imp[i])
    ensures StripModuleStatements(imp + [t] + rest) == [t] + StripModuleStatements(rest)
  {
    StripAppend(imp, t, rest);
    StripSingleLine(imp);
    var e: string := [];
    assert e + [t] + StripModuleStatements(rest) == [t] + StripModuleStatements(rest);
  }

  /** A text the cleaning leaves alone is still left alone with a line terminator after it. */
  lemma StripCleanLine(body: string, t: char)
    requires IsLineTerminator(t)
    requires StripModuleStatements(body) == body
    ensures StripModuleStatements(body + [t]) == body + [t]
  {
    var e: string := [];
    StripAppend(body, t, e);
    assert body + [t] + e == body + [t];
    assert StripModuleStatements(e) == e;
  }

  /** `.trim()` removes a line break on either side of a text that starts and ends with a visible character. */
  lemma TrimLineBreaks(body: string)
    requires |body| > 0 && !IsTrimmable(body[0]) && !IsTrimmable(body[|body| - 1])
    ensures Trim("\n" + body + "\n") == body
  {
    var t := "\n" + body + "\n";
    var u := body + "\n";
    assert t[1..] == u;
    assert TrimStart(t) == TrimStart(u);
    assert TrimStart(u) == u;
    assert u[..|u| - 1] == body;
    assert TrimEnd(u) == TrimEnd(body);
    assert TrimEnd(body) == body;
  }

  /** The line terminators of a text, in order. */
  function Terminators(s: string): seq<char> {
    if |s| == 0 then [] else (if IsLineTerminator(s[0]) then [s[0]] else []) + Terminators(s[1..])
  }

  lemma {:induction false} TerminatorsAppend(a: string, b: string)
    ensures Terminators(a + b) == Terminators(a) + Terminators(b)
  {
    if |a| > 0 {
      assert (a + b)[1..] == a[1..] + b;
      TerminatorsAppend(a[1..], b);
    } else {
      assert a + b == b;
    }
  }

  lemma {:induction false} NoTerminators(s: string)
    requires forall i :: 0 <= i < |s| ==> !IsLineTerminator(s[i])
    ensures Terminators(s) == []
  {
    if |s| > 0 {
      NoTerminators(s[1..]);
    }
  }

  /**
   * Blanking keeps the line structure: the cleaned text has the same line
   * terminators, in the same order, as the original.
   */
  lemma {:induction false} StripKeepsLineBreaks(s: string)
    ensures Terminators(StripModuleStatements(s)) == Terminators(s)
    decreases |s|
  {
    var n := LineEnd(s);
    LineEndClean(s);
    NoTerminators(s[..n]);
    assert Terminators(Kept(s[..n])) == [];
    if n < |s| {
      StripKeepsLineBreaks(s[n + 1..]);
      var k := Kept(s[..n]);
      var rest := StripModuleStatements(s[n + 1..]);
      TerminatorsAppend(k + [s[n]], rest);
      TerminatorsAppend(k, [s[n]]);
      assert Terminators([s[n]]) == [s[n]] by {
        assert [s[n]][1..] == [];
      }
      assert s == s[..n] + ([s[n]] + s[n + 1..]);
      TerminatorsAppend(s[..n], [s[n]] + s[n + 1..]);
      TerminatorsAppend([s[n]], s[n + 1..]);
    } else {
      assert s[..n] == s;
    }
  }
}
