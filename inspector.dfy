/**
 * Rendering of objects for the log: the identity token (`id_object`), the
 * fenced rendering (`inspect_object`, and the older proxy's variant without
 * an identity line), and the small Ruby string operations they rely on.
 *
 * What Ruby's `pretty_inspect` prints for an object is not modelled: a Value
 * carries it as given.
 */
module Inspector {

  /** An object as the logger sees it: its class name, its object_id and the
      text its pretty_inspect returns. */
  datatype Value = Value(cls: string, id: nat, pretty: string)

  /** Ruby's truthiness: only nil and false are falsy. */
  predicate Truthy(v: Value) {
    v.cls != "NilClass" && v.cls != "FalseClass"
  }

  /** An exception object raised by the tracing code itself (an ArgumentError
      from Proxy.new, a TypeError from a formatter); its object_id is taken
      from the environment. */
  function RaisedError(cls: string, message: string, id: nat): (e: Value)
    ensures e.cls == cls && e.id == id
  {
    Value(cls, id, "#<" + cls + ": " + message + ">\n")
  }

  // ----- lower-case hexadecimal, as Integer#to_s(16) writes it -----

  predicate IsHexDigit(c: char) {
    '0' <= c <= '9' || 'a' <= c <= 'f'
  }

  predicate AllHex(s: string) {
    forall i :: 0 <= i < |s| ==> IsHexDigit(s[i])
  }

  function HexDigit(d: nat): (c: char)
    requires d < 16
    ensures IsHexDigit(c)
  {
    if d < 10 then '0' + d as char else 'a' + (d - 10) as char
  }

  function DigitValue(c: char): (d: nat)
    requires IsHexDigit(c)
    ensures d < 16
  {
    if c <= '9' then (c - '0') as nat else (c - 'a') as nat + 10
  }

  lemma DigitRoundTrip(d: nat)
    requires d < 16
    ensures DigitValue(HexDigit(d)) == d
  {
  }

  /** Integer#to_s(16): most significant digit first, no leading zeros. */
  function Hex(n: nat): (s: string)
    ensures |s| > 0 && AllHex(s)
    decreases n
  {
    if n < 16 then [HexDigit(n)] else Hex(n / 16) + [HexDigit(n % 16)]
  }

  /** Reads a string of hexadecimal digits back as a number. */
  function ParseHex(s: string): nat
    requires AllHex(s)
    decreases |s|
  {
    if s == [] then 0 else 16 * ParseHex(s[..|s| - 1]) + DigitValue(s[|s| - 1])
  }

  lemma {:induction false} ParseHexOfHex(n: nat)
    ensures ParseHex(Hex(n)) == n
    decreases n
  {
    var s := Hex(n);
    if n < 16 {
      assert s[..|s| - 1] == [];
      DigitRoundTrip(n);
    } else {
      assert s[..|s| - 1] == Hex(n / 16);
      assert s[|s| - 1] == HexDigit(n % 16);
      ParseHexOfHex(n / 16);
      DigitRoundTrip(n % 16);
    }
  }

  lemma HexInjective(m: nat, n: nat)
    ensures Hex(m) == Hex(n) ==> m == n
  {
    ParseHexOfHex(m);
    ParseHexOfHex(n);
  }

  // ----- identity tokens and renderings -----

  /** `#<Class:0x...>` between backticks, as MarkdownLogger.id_object writes it. */
  function IdObject(v: Value): string {
    "`#<" + v.cls + ":0x" + Hex(v.id) + ">`"
  }

  /** Two objects get the same identity token only when they have the same
      class and the same object_id: the token can be read back. */
  lemma IdObjectInjective(v: Value, w: Value)
    ensures IdObject(v) == IdObject(w) <==> v.cls == w.cls && v.id == w.id
  {
    if IdObject(v) == IdObject(w) {
      var a, b := v.cls + ":0x" + Hex(v.id), w.cls + ":0x" + Hex(w.id);
      assert IdObject(v) == "`#<" + a + ">`";
      assert IdObject(w) == "`#<" + b + ">`";
      assert a == IdObject(v)[3..|IdObject(v)| - 2];
      assert b == IdObject(w)[3..|IdObject(w)| - 2];
      assert a == b;
      TokenTail(v.cls, Hex(v.id), w.cls, Hex(w.id));
      HexInjective(v.id, w.id);
    }
  }

  /** `cls + ":0x" + hex` determines cls and hex, because the digits of hex
      never include the 'x' that precedes them. */
  lemma TokenTail(c1: string, h1: string, c2: string, h2: string)
    requires AllHex(h1) && AllHex(h2)
    requires c1 + ":0x" + h1 == c2 + ":0x" + h2
    ensures c1 == c2 && h1 == h2
  {
    var a := c1 + ":0x" + h1;
    var b := c2 + ":0x" + h2;
    assert a[|a| - |h1| - 1] == 'x' && b[|b| - |h2| - 1] == 'x';
    assert h1 == a[|a| - |h1|..];
    assert h2 == b[|b| - |h2|..];
    assert c1 == a[..|c1|];
    assert c2 == b[..|c2|];
  }

  /** String#chomp with no argument: drops one trailing "\r\n", "\n" or "\r". */
  function Chomp(s: string): string {
    if |s| >= 2 && s[|s| - 2..] == "\r\n" then s[..|s| - 2]
    else if |s| >= 1 && (s[|s| - 1] == '\n' || s[|s| - 1] == '\r') then s[..|s| - 1]
    else s
  }

  /** Chomp removes at most one line ending, and nothing before it. */
  lemma ChompRemoves(s: string)
    ensures Chomp(s) == s || Chomp(s) + "\n" == s || Chomp(s) + "\r" == s || Chomp(s) + "\r\n" == s
    ensures |s| >= 2 ==> Chomp(s)[..|s| - 2] == s[..|s| - 2]
  {
  }

  /** String#chop: drops the last character, or a trailing "\r\n" as a whole. */
  function Chop(s: string): string {
    if |s| >= 2 && s[|s| - 2..] == "\r\n" then s[..|s| - 2]
    else if s == [] then s
    else s[..|s| - 1]
  }

  /** Chop removes exactly the last character, or a final "\r\n"; what it
      keeps is a prefix of the string. */
  lemma ChopRemoves(s: string)
    ensures s == [] ==> Chop(s) == []
    ensures s != [] ==> Chop(s) + [s[|s| - 1]] == s || Chop(s) + "\r\n" == s
    ensures Chop(s) == s[..|Chop(s)|]
  {
  }

  /** Array#join(sep) over strings. */
  function Join(sep: string, parts: seq<string>): string
    decreases |parts|
  {
    if parts == [] then ""
    else if |parts| == 1 then parts[0]
    else parts[0] + sep + Join(sep, parts[1..])
  }

  /** Cuts a string at every occurrence of sep, keeping empty pieces; the
      inverse of Join for pieces that do not contain sep. */
  function Split(s: string, sep: char): (r: seq<string>)
    ensures |r| > 0
    decreases |s|
  {
    if s == [] then [""]
    else if s[0] == sep then [""] + Split(s[1..], sep)
    else var rest := Split(s[1..], sep); [[s[0]] + rest[0]] + rest[1..]
  }

  lemma {:induction false} SplitPlain(s: string, sep: char)
    requires sep !in s
    ensures Split(s, sep) == [s]
    decreases |s|
  {
    if s != [] {
      SplitPlain(s[1..], sep);
      assert [s[0]] + s[1..] == s;
    }
  }

  lemma {:induction false} SplitConcat(a: string, sep: char, b: string)
    ensures Split(a + [sep] + b, sep) == Split(a, sep) + Split(b, sep)
    decreases |a|
  {
    if a == [] {
      assert a + [sep] + b == [sep] + b;
      assert ([sep] + b)[1..] == b;
    } else {
      var s := a + [sep] + b;
      assert s[0] == a[0];
      assert s[1..] == a[1..] + [sep] + b;
      SplitConcat(a[1..], sep, b);
      var x, y := Split(a[1..], sep), Split(b, sep);
      if a[0] == sep {
        assert Split(s, sep) == [""] + (x + y);
        assert Split(a, sep) == [""] + x;
        AppendAssoc([""], x, y);
      } else {
        assert Split(s, sep) == [[a[0]] + (x + y)[0]] + (x + y)[1..];
        assert (x + y)[0] == x[0] && (x + y)[1..] == x[1..] + y;
        assert Split(a, sep) == [[a[0]] + x[0]] + x[1..];
        AppendAssoc([[a[0]] + x[0]], x[1..], y);
      }
    }
  }

  lemma AppendAssoc<T>(a: seq<T>, b: seq<T>, c: seq<T>)
    ensures a + b + c == a + (b + c)
  {
  }

  /** A line without a newline, a newline, and the rest: the line comes first. */
  lemma SplitAfterLine(line: string, rest: string)
    requires '\n' !in line
    ensures Split(line + "\n" + rest, '\n') == [line] + Split(rest, '\n')
  {
    SplitPlain(line, '\n');
    SplitConcat(line, '\n', rest);
  }

  /** Splitting a join at its separator gives the parts back. */
  lemma {:induction false} SplitJoin(parts: seq<string>, sep: char)
    requires |parts| > 0
    requires forall i :: 0 <= i < |parts| ==> sep !in parts[i]
    ensures Split(Join([sep], parts), sep) == parts
    decreases |parts|
  {
    if |parts| == 1 {
      SplitPlain(parts[0], sep);
    } else {
      SplitJoin(parts[1..], sep);
      SplitConcat(parts[0], sep, Join([sep], parts[1..]));
      SplitPlain(parts[0], sep);
      assert [parts[0]] + parts[1..] == parts;
    }
  }

  /** MarkdownLogger.inspect_object: a fenced Ruby block whose first line is
      a comment holding the identity token (see InspectObjectJoin for the
      four-part join it is written as). */
  function InspectObject(v: Value): string {
    "```ruby\n" + ("# " + IdObject(v) + ("\n" + (Chomp(v.pretty) + "\n```")))
  }

  /** The rendering is the join, with newlines, of the fence line, the
      identity comment, the chomped pretty_inspect output and the closing
      fence. */
  lemma InspectObjectJoin(v: Value)
    ensures InspectObject(v) == Join("\n", ["```ruby", "# " + IdObject(v), Chomp(v.pretty), "```"])
  {
    JoinFour("\n", "```ruby", "# " + IdObject(v), Chomp(v.pretty), "```");
  }

  /** Read line by line, the rendering is the fence line, the identity
      comment, the lines of the chomped pretty_inspect output and the closing
      fence. */
  lemma InspectObjectLines(v: Value)
    requires '\n' !in v.cls
    ensures Split(InspectObject(v), '\n')
         == ["```ruby", "# " + IdObject(v)] + Split(Chomp(v.pretty), '\n') + ["```"]
  {
    var id := "# " + IdObject(v);
    var body := Chomp(v.pretty);
    SingleLineId(v);
    assert InspectObject(v) == "```ruby" + "\n" + (id + "\n" + (body + "\n" + "```"));
    FencedLines("```ruby", id, body, "```");
  }

  /** A fence line, one more line, a body and a closing fence, joined with
      newlines, split back into those lines and the body's own lines. */
  lemma FencedLines(open: string, line: string, body: string, close: string)
    requires '\n' !in open && '\n' !in line && '\n' !in close
    ensures Split(open + "\n" + (line + "\n" + (body + "\n" + close)), '\n')
         == [open, line] + Split(body, '\n') + [close]
  {
    FencedBody(line, body, close);
    SplitAfterLine(open, line + "\n" + (body + "\n" + close));
  }

  /** A fence line, a body and a closing fence, joined with newlines. */
  lemma FencedBody(open: string, body: string, close: string)
    requires '\n' !in open && '\n' !in close
    ensures Split(open + "\n" + (body + "\n" + close), '\n') == [open] + Split(body, '\n') + [close]
  {
    SplitConcat(body, '\n', close);
    SplitPlain(close, '\n');
    SplitAfterLine(open, body + "\n" + close);
  }

  lemma SingleLineId(v: Value)
    requires '\n' !in v.cls
    ensures '\n' !in "# " + IdObject(v)
  {
    var h := Hex(v.id);
    assert '\n' !in h;
    var parts := ["# `#<", v.cls, ":0x", h, ">`"];
    assert "# " + IdObject(v) == parts[0] + parts[1] + parts[2] + parts[3] + parts[4];
  }

  lemma JoinFour(sep: string, a: string, b: string, c: string, d: string)
    ensures Join(sep, [a, b, c, d]) == a + sep + (b + sep + (c + sep + d))
  {
    assert [a, b, c, d][1..] == [b, c, d] && [b, c, d][1..] == [c, d] && [c, d][1..] == [d];
    assert Join(sep, [c, d]) == c + sep + d;
    assert Join(sep, [b, c, d]) == b + sep + Join(sep, [c, d]);
  }

  lemma JoinThree(sep: string, a: string, b: string, c: string)
    ensures Join(sep, [a, b, c]) == a + sep + (b + sep + c)
  {
    assert [a, b, c][1..] == [b, c] && [b, c][1..] == [c];
    assert Join(sep, [b, c]) == b + sep + c;
  }

  /** The older Proxy#__inspect_object: the same fence without the identity
      line (see LegacyInspectObjectJoin). */
  function LegacyInspectObject(v: Value): string {
    "```ruby\n" + (Chomp(v.pretty) + "\n```")
  }

  lemma LegacyInspectObjectJoin(v: Value)
    ensures LegacyInspectObject(v) == Join("\n", ["```ruby", Chomp(v.pretty), "```"])
  {
    JoinThree("\n", "```ruby", Chomp(v.pretty), "```");
  }

  lemma LegacyInspectObjectLines(v: Value)
    ensures Split(LegacyInspectObject(v), '\n')
         == ["```ruby"] + Split(Chomp(v.pretty), '\n') + ["```"]
  {
    var body := Chomp(v.pretty);
    assert LegacyInspectObject(v) == "```ruby" + "\n" + (body + "\n" + "```");
    FencedBody("```ruby", body, "```");
  }
}
