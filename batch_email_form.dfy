/** The e-mail list parsing of the batch form (components/batch-email-form.tsx):
    the pasted text is split into lines, each line is trimmed, the lines that
    are non-empty and contain an `@` become one request each, all with the
    same subject, the plain-text message and an HTML rendering of it. The
    form also shows how many lines qualify; the lemmas at the end prove that
    number is the number of requests a submit produces. */
module BatchEmailForm {
  import opened Base
  import opened EmailQueue

  /** What the form shows when no line qualifies. */
  const NoValidEmails: string := "Nenhum e-mail válido encontrado"

  // ---------------------------------------------------------------------------
  // Splitting and joining lines
  // ---------------------------------------------------------------------------

  /** The index of the first line feed at or after `i`, or `|s|` when there
      is none. */
  function LineEnd(s: string, i: nat): (r: nat)
    requires i <= |s|
    ensures i <= r <= |s|
    ensures r < |s| ==> s[r] == '\n'
    ensures forall j :: i <= j < r ==> s[j] != '\n'
    decreases |s| - i
  {
    if i == |s| || s[i] == '\n' then i else LineEnd(s, i + 1)
  }

  /** The first line feed is the only index with the properties above. */
  lemma LineEndUnique(s: string, i: nat, k: nat)
    requires i <= k <= |s|
    requires k < |s| ==> s[k] == '\n'
    requires forall j :: i <= j < k ==> s[j] != '\n'
    ensures LineEnd(s, i) == k
  {
  }

  /** `s.split("\n")`: the pieces between line feeds. An empty text is one
      empty line, and a text ending in a line feed has an empty last line. */
  function SplitLines(s: string): (r: seq<string>)
    ensures r != []
    decreases |s|
  {
    var k := LineEnd(s, 0);
    if k == |s| then [s] else [s[..k]] + SplitLines(s[k + 1..])
  }

  /** `lines.join(sep)`. */
  function JoinWith(lines: seq<string>, sep: string): string
  {
    if lines == [] then ""
    else if |lines| == 1 then lines[0]
    else lines[0] + sep + JoinWith(lines[1..], sep)
  }

  lemma JoinWithCons(line: string, rest: seq<string>, sep: string)
    requires rest != []
    ensures JoinWith([line] + rest, sep) == line + sep + JoinWith(rest, sep)
  {
    assert ([line] + rest)[1..] == rest;
  }

  /** No line contains a line feed. */
  lemma {:induction false} SplitLinesHaveNoNewline(s: string)
    ensures forall k :: 0 <= k < |SplitLines(s)| ==> '\n' !in SplitLines(s)[k]
    decreases |s|
  {
    var k := LineEnd(s, 0);
    if k < |s| {
      SplitLinesHaveNoNewline(s[k + 1..]);
    }
    assert '\n' !in s[..k];
  }

  /** Joining the lines back with line feeds gives the text that was split. */
  lemma {:induction false} SplitThenJoin(s: string)
    ensures JoinWith(SplitLines(s), "\n") == s
    decreases |s|
  {
    var k := LineEnd(s, 0);
    if k < |s| {
      SplitThenJoin(s[k + 1..]);
      JoinWithCons(s[..k], SplitLines(s[k + 1..]), "\n");
      assert s == s[..k] + "\n" + s[k + 1..];
    }
  }

  /** A text without a line feed is a single line. */
  lemma SplitOneLine(s: string)
    requires '\n' !in s
    ensures SplitLines(s) == [s]
  {
    LineEndUnique(s, 0, |s|);
    assert s[..|s|] == s;
  }

  /** A line without a line feed, then a line feed: the first line is that
      line, and the others are the lines of what follows. */
  lemma SplitFirstLine(line: string, rest: string)
    requires '\n' !in line
    ensures SplitLines(line + "\n" + rest) == [line] + SplitLines(rest)
  {
    var s := line + "\n" + rest;
    LineEndUnique(s, 0, |line|);
    assert s[..|line|] == line;
    assert s[|line| + 1..] == rest;
  }

  /** Splitting undoes joining, for lines without line feeds. */
  lemma {:induction false} JoinThenSplit(lines: seq<string>)
    requires lines != []
    requires forall k :: 0 <= k < |lines| ==> '\n' !in lines[k]
    ensures SplitLines(JoinWith(lines, "\n")) == lines
  {
    SplitOneLine(lines[0]);
    if |lines| > 1 {
      JoinThenSplit(lines[1..]);
      SplitFirstLine(lines[0], JoinWith(lines[1..], "\n"));
      assert lines == [lines[0]] + lines[1..];
    }
  }

  // ---------------------------------------------------------------------------
  // Trimming
  // ---------------------------------------------------------------------------

  /** The characters `String.prototype.trim` removes: the ECMAScript white
      space (tab, vertical tab, form feed, no-break space, byte order mark and
      every space separator) and the line terminators. */
  predicate IsTrimmable(c: char)
  {
    c == '\t' || c == '\U{000B}' || c == '\U{000C}' || c == ' ' || c == '\U{00A0}' || c == '\U{FEFF}' ||
    c == '\U{1680}' || ('\U{2000}' <= c <= '\U{200A}') || c == '\U{202F}' || c == '\U{205F}' || c == '\U{3000}' ||
    c == '\n' || c == '\r' || c == '\U{2028}' || c == '\U{2029}'
  }

  /** The text without its leading trimmable characters. */
  function TrimStart(s: string): (r: string)
    ensures |r| <= |s|
  {
    if s != [] && IsTrimmable(s[0]) then TrimStart(s[1..]) else s
  }

  /** What `TrimStart` keeps is a suffix of `s` that starts with a kept
      character, and everything it cut is trimmable. */
  lemma {:induction false} TrimStartShape(s: string)
    ensures TrimStart(s) == s[|s| - |TrimStart(s)|..]
    ensures TrimStart(s) == [] || !IsTrimmable(TrimStart(s)[0])
    ensures forall i :: 0 <= i < |s| - |TrimStart(s)| ==> IsTrimmable(s[i])
  {
    if s != [] && IsTrimmable(s[0]) {
      TrimStartShape(s[1..]);
      forall i | 1 <= i < |s| - |TrimStart(s)| ensures IsTrimmable(s[i]) {
        assert s[i] == s[1..][i - 1];
      }
    }
  }

  /** The text without its trailing trimmable characters. */
  function TrimEnd(s: string): (r: string)
    ensures |r| <= |s|
  {
    if s != [] && IsTrimmable(s[|s| - 1]) then TrimEnd(s[..|s| - 1]) else s
  }

  /** What `TrimEnd` keeps is a prefix of `s` that ends with a kept
      character, and everything it cut is trimmable. */
  lemma {:induction false} TrimEndShape(s: string)
    ensures TrimEnd(s) == s[..|TrimEnd(s)|]
    ensures TrimEnd(s) == [] || !IsTrimmable(TrimEnd(s)[|TrimEnd(s)| - 1])
    ensures forall i :: |TrimEnd(s)| <= i < |s| ==> IsTrimmable(s[i])
  {
    if s != [] && IsTrimmable(s[|s| - 1]) {
      TrimEndShape(s[..|s| - 1]);
      forall i | |TrimEnd(s)| <= i < |s| - 1 ensures IsTrimmable(s[i]) {
        assert s[i] == s[..|s| - 1][i];
      }
    }
  }

  /** `line.trim()`. */
  function Trim(s: string): (r: string)
    ensures |r| <= |s|
  {
    TrimEnd(TrimStart(s))
  }

  /** The trimmed text neither starts nor ends with a trimmable character. */
  lemma TrimEnds(s: string)
    ensures Trim(s) == [] || (!IsTrimmable(Trim(s)[0]) && !IsTrimmable(Trim(s)[|Trim(s)| - 1]))
  {
    var t := TrimStart(s);
    TrimStartShape(s);
    TrimEndShape(t);
    if Trim(s) != [] {
      assert Trim(s)[0] == t[0];
    }
  }

  /** Trimming removes only trimmable characters, and a character that is not
      trimmable occurs in the trimmed text exactly when it occurs in `s`. */
  lemma TrimKeeps(s: string, c: char)
    requires !IsTrimmable(c)
    ensures c in Trim(s) <==> c in s
  {
    if c in s {
      var i :| 0 <= i < |s| && s[i] == c;
      TrimKeepsAt(s, i);
    }
    if c in Trim(s) {
      var i :| 0 <= i < |Trim(s)| && Trim(s)[i] == c;
      TrimTakesFrom(s, i);
    }
  }

  /** A kept character of `s` is still in the trimmed text. */
  lemma TrimKeepsAt(s: string, i: nat)
    requires i < |s| && !IsTrimmable(s[i])
    ensures s[i] in Trim(s)
  {
    var t := TrimStart(s);
    var k := |s| - |t|;
    TrimStartShape(s);
    assert k <= i;
    assert t[i - k] == s[i];
    TrimEndShape(t);
    assert i - k < |TrimEnd(t)|;
    assert Trim(s)[i - k] == s[i];
  }

  /** Every character of the trimmed text comes from `s`. */
  lemma TrimTakesFrom(s: string, i: nat)
    requires i < |Trim(s)|
    ensures Trim(s)[i] in s
  {
    var t := TrimStart(s);
    TrimStartShape(s);
    TrimEndShape(t);
    assert Trim(s)[i] == t[i];
    assert t[i] == s[|s| - |t| + i];
  }

  /** Trimming twice is trimming once. */
  lemma TrimIdempotent(s: string)
    ensures Trim(Trim(s)) == Trim(s)
  {
    var r := Trim(s);
    TrimEnds(s);
    assert TrimStart(r) == r;
    assert TrimEnd(r) == r;
  }

  // ---------------------------------------------------------------------------
  // Picking the addresses
  // ---------------------------------------------------------------------------

  /** The filter of the submit handler, on a trimmed line: `line && line.includes("@")`. */
  predicate Qualifies(t: string)
  {
    t != [] && '@' in t
  }

  /** What one line contributes: its trimmed self if that qualifies. */
  function Pick(line: string): (r: seq<string>)
    ensures |r| <= 1
  {
    var t := Trim(line);
    if Qualifies(t) then [t] else []
  }

  /** `lines.map(line => line.trim()).filter(line => line && line.includes("@"))`. */
  function Addresses(lines: seq<string>): (r: seq<string>)
    ensures |r| <= |lines|
  {
    if lines == [] then [] else Pick(lines[0]) + Addresses(lines[1..])
  }

  /** The addresses of a pasted text, one per qualifying line. */
  function TextAddresses(text: string): (r: seq<string>)
    ensures forall a :: a in r ==> Qualifies(a) && Trim(a) == a
  {
    AddressesAreTrimmedLines(SplitLines(text));
    Addresses(SplitLines(text))
  }

  lemma {:induction false} AddressesAppend(a: seq<string>, b: seq<string>)
    ensures Addresses(a + b) == Addresses(a) + Addresses(b)
  {
    if a == [] {
      assert a + b == b;
    } else {
      var ab := a + b;
      assert ab[0] == a[0];
      assert ab[1..] == a[1..] + b;
      AddressesAppend(a[1..], b);
      calc {
        Addresses(ab);
        Pick(a[0]) + Addresses(a[1..] + b);
        Pick(a[0]) + (Addresses(a[1..]) + Addresses(b));
        (Pick(a[0]) + Addresses(a[1..])) + Addresses(b);
      }
    }
  }

  lemma AddressesOne(line: string)
    ensures Addresses([line]) == Pick(line)
  {
    assert [line][1..] == [];
  }

  /** A text that is one line gives that line's trimmed self when it
      qualifies and nothing otherwise. */
  lemma TextAddressesOneLine(line: string)
    requires '\n' !in line
    ensures TextAddresses(line) == Pick(line)
  {
    SplitOneLine(line);
    AddressesOne(line);
  }

  /** One address per qualifying line, in line order: a first line followed
      by a line feed contributes its address, if any, ahead of the addresses
      of the rest. */
  lemma TextAddressesFirstLine(line: string, rest: string)
    requires '\n' !in line
    ensures TextAddresses(line + "\n" + rest) == Pick(line) + TextAddresses(rest)
  {
    SplitFirstLine(line, rest);
    AddressesAppend([line], SplitLines(rest));
    AddressesOne(line);
  }

  /** What a line contributes is its trimmed self, non-empty, with an `@`. */
  lemma PickIsTrimmedLine(line: string)
    ensures forall a :: a in Pick(line) ==> a == Trim(line) && a != [] && '@' in a && Trim(a) == a
  {
    TrimIdempotent(line);
  }

  /** Every address is a trimmed, non-empty line of the input containing `@`. */
  lemma {:induction false} AddressesAreTrimmedLines(lines: seq<string>)
    ensures forall a :: a in Addresses(lines) ==>
              a != [] && '@' in a && Trim(a) == a && exists k :: 0 <= k < |lines| && Trim(lines[k]) == a
  {
    if lines != [] {
      AddressesAreTrimmedLines(lines[1..]);
      PickIsTrimmedLine(lines[0]);
      assert Addresses(lines) == Pick(lines[0]) + Addresses(lines[1..]);
      forall a | a in Addresses(lines)
        ensures a != [] && '@' in a && Trim(a) == a && exists k :: 0 <= k < |lines| && Trim(lines[k]) == a
      {
        if a in Pick(lines[0]) {
          assert Trim(lines[0]) == a;
        } else {
          assert a in Addresses(lines[1..]);
          var k :| 0 <= k < |lines[1..]| && Trim(lines[1..][k]) == a;
          assert lines[k + 1] == lines[1..][k];
        }
      }
    }
  }

  // ---------------------------------------------------------------------------
  // The displayed count
  // ---------------------------------------------------------------------------

  /** `lines.filter(line => line.trim() && line.includes("@")).length`: the
      count the form displays, which tests `@` on the untrimmed line. */
  function CountValid(lines: seq<string>): (n: nat)
    ensures n <= |lines|
  {
    if lines == [] then 0
    else (if Trim(lines[0]) != [] && '@' in lines[0] then 1 else 0) + CountValid(lines[1..])
  }

  /** The displayed count is the number of addresses: testing `@` before or
      after the trim selects the same lines. */
  lemma {:induction false} CountValidIsAddressCount(lines: seq<string>)
    ensures CountValid(lines) == |Addresses(lines)|
  {
    if lines != [] {
      TrimKeeps(lines[0], '@');
      CountValidIsAddressCount(lines[1..]);
    }
  }

  // ---------------------------------------------------------------------------
  // Building the requests
  // ---------------------------------------------------------------------------

  /** What `replace(/\n/g, "<br>")` makes of one character. */
  function Piece(c: char): string
  {
    if c == '\n' then "<br>" else [c]
  }

  /** `message.replace(/\n/g, "<br>")`. */
  function ReplaceNewlines(m: string): (r: string)
    ensures |r| >= |m|
  {
    if m == [] then "" else Piece(m[0]) + ReplaceNewlines(m[1..])
  }

  lemma {:induction false} ReplaceAppend(a: string, b: string)
    ensures ReplaceNewlines(a + b) == ReplaceNewlines(a) + ReplaceNewlines(b)
  {
    if a == [] {
      assert a + b == b;
    } else {
      var ab := a + b;
      assert ab[0] == a[0];
      assert ab[1..] == a[1..] + b;
      ReplaceAppend(a[1..], b);
      calc {
        ReplaceNewlines(ab);
        Piece(a[0]) + ReplaceNewlines(a[1..] + b);
        Piece(a[0]) + (ReplaceNewlines(a[1..]) + ReplaceNewlines(b));
        (Piece(a[0]) + ReplaceNewlines(a[1..])) + ReplaceNewlines(b);
      }
    }
  }

  /** A text without line feeds is left as it is. */
  lemma {:induction false} ReplaceKeepsLine(s: string)
    requires '\n' !in s
    ensures ReplaceNewlines(s) == s
  {
    if s != [] {
      assert s[0] in s;
      assert '\n' !in s[1..] by {
        forall k | 0 <= k < |s[1..]| ensures s[1..][k] != '\n' {
          assert s[1..][k] == s[k + 1];
        }
      }
      ReplaceKeepsLine(s[1..]);
      assert s == [s[0]] + s[1..];
    }
  }

  /** The result has no line feed left. */
  lemma {:induction false} ReplaceRemovesNewlines(m: string)
    ensures '\n' !in ReplaceNewlines(m)
  {
    if m != [] {
      ReplaceRemovesNewlines(m[1..]);
    }
  }

  /** A line, a line feed, and the rest: the line, a `<br>`, and the rest
      with its line feeds replaced. */
  lemma ReplaceFirstLine(line: string, rest: string)
    requires '\n' !in line
    ensures ReplaceNewlines(line + "\n" + rest) == line + "<br>" + ReplaceNewlines(rest)
  {
    ReplaceKeepsLine(line);
    ReplaceAppend(line + "\n", rest);
    ReplaceAppend(line, "\n");
    assert ReplaceNewlines("\n") == "<br>";
  }

  /** Replacing every line feed is splitting at the line feeds and joining
      with `<br>`. */
  lemma {:induction false} ReplaceIsSplitJoin(m: string)
    ensures ReplaceNewlines(m) == JoinWith(SplitLines(m), "<br>")
    decreases |m|
  {
    var k := LineEnd(m, 0);
    var line := m[..k];
    assert '\n' !in line;
    if k == |m| {
      assert line == m;
      ReplaceKeepsLine(m);
      SplitOneLine(m);
    } else {
      var rest := m[k + 1..];
      assert m == line + "\n" + rest;
      ReplaceIsSplitJoin(rest);
      ReplaceFirstLine(line, rest);
      SplitFirstLine(line, rest);
      JoinWithCons(line, SplitLines(rest), "<br>");
    }
  }

  /** The HTML body of every request: the message in a paragraph, line feeds
      turned into line breaks. */
  function Html(message: string): (h: string)
    ensures |h| == |ReplaceNewlines(message)| + 7
    ensures h[..3] == "<p>" && h[|h| - 4..] == "</p>"
    ensures h[3..|h| - 4] == ReplaceNewlines(message)
  {
    "<p>" + ReplaceNewlines(message) + "</p>"
  }

  /** The requests of a submit: one per address, all with the same subject,
      the HTML rendering and the plain message. */
  function Requests(addresses: seq<string>, subject: string, message: string): (r: seq<EmailRequest>)
    ensures |r| == |addresses|
    ensures forall k :: 0 <= k < |r| ==>
              r[k].to == addresses[k] && r[k].subject == subject &&
              r[k].html == Some(Html(message)) && r[k].text == Some(message)
  {
    seq(|addresses|, k requires 0 <= k < |addresses| =>
      EmailRequest(addresses[k], subject, Some(Html(message)), Some(message)))
  }

  /** The parsing step of `handleSubmit`: the requests to enqueue, or the
      message shown when no line qualifies (nothing is enqueued then). */
  function ParseEmailList(text: string, subject: string, message: string): (r: Result<seq<EmailRequest>, string>)
    ensures r.Err? <==> TextAddresses(text) == []
    ensures r.Err? ==> r.error == NoValidEmails
    ensures r.Ok? ==> r.value == Requests(TextAddresses(text), subject, message)
  {
    var addresses := TextAddresses(text);
    if |addresses| == 0 then Err(NoValidEmails)
    else Ok(Requests(addresses, subject, message))
  }

  /** The form's count of valid lines is zero exactly when a submit shows the
      error, and otherwise it is the number of requests the submit enqueues. */
  lemma DisplayedCountMatchesSubmit(text: string, subject: string, message: string)
    ensures CountValid(SplitLines(text)) == 0 <==> ParseEmailList(text, subject, message).Err?
    ensures ParseEmailList(text, subject, message).Ok? ==>
              |ParseEmailList(text, subject, message).value| == CountValid(SplitLines(text))
  {
    CountValidIsAddressCount(SplitLines(text));
  }
}
