/** What the ImageDescriber integration does with a successful response:
    find the description in the JSON body, and normalise its text for
    display. */
module Describer {
  import opened Text
  import opened Optional

  /** A decoded JSON value, with only the distinctions the extraction makes. */
  datatype Json = JStr(s: string) | JObj(fields: map<string, Json>) | JOther


  /** The value found under `key`, when it is there and is a string. */
  predicate HasString(m: map<string, Json>, key: string) {
    key in m && m[key].JStr?
  }

  /** Looks the description up in the response object: a top-level
      "description" of any type; else, when "data" is present and an object,
      its string "content" or else its string "description"; else, only when
      neither "description" nor "data" is present, a string "result". */
  function Extract(body: map<string, Json>): (r: Option<Json>)
    ensures "description" in body ==> r == Some(body["description"])
    ensures r.Some? && "description" !in body ==> r.value.JStr?
    ensures "description" !in body && "data" !in body && HasString(body, "result") ==>
      r == Some(body["result"])
    ensures r.Some? && "description" !in body && "data" !in body ==>
      "result" in body && r == Some(body["result"])
    ensures r.Some? && "description" !in body && "data" in body ==>
      body["data"].JObj? && r.value in body["data"].fields.Values
  {
    if "description" in body then Some(body["description"])
    else if "data" in body then
      match body["data"]
      case JObj(d) =>
        if HasString(d, "content") then Some(d["content"])
        else if HasString(d, "description") then Some(d["description"])
        else None
      case _ => None
    else if HasString(body, "result") then Some(body["result"])
    else None
  }

  /** The top-level "description" wins whatever its type and whatever else
      the body holds. */
  lemma DescriptionWins(body: map<string, Json>, key: string, v: Json)
    requires "description" in body && key != "description"
    ensures Extract(body[key := v]) == Extract(body) == Some(body["description"])
  {
  }

  /** "result" is consulted only when neither "description" nor "data" is
      present: otherwise changing it changes nothing. */
  lemma ResultOnlyWithoutDescriptionOrData(body: map<string, Json>, v: Json)
    requires "description" in body || "data" in body
    ensures Extract(body["result" := v]) == Extract(body)
  {
  }

  /** A present but unusable "data" blocks the "result" fallback. */
  lemma DataShadowsResult(body: map<string, Json>)
    requires "description" !in body && "data" in body && !body["data"].JObj?
    ensures Extract(body) == None
  {
  }

  /** Inside "data", a string "content" is preferred to "description", and a
      non-string "content" is skipped. */
  lemma DataContentFirst(body: map<string, Json>, d: map<string, Json>)
    requires "description" !in body && "data" in body && body["data"] == JObj(d)
    ensures HasString(d, "content") ==> Extract(body) == Some(d["content"])
    ensures !HasString(d, "content") && HasString(d, "description") ==> Extract(body) == Some(d["description"])
    ensures !HasString(d, "content") && !HasString(d, "description") ==> Extract(body) == None
  {
  }

  /** The text shown for a 200 response whose body is the object `body`;
      `dumps` is the JSON serialiser, left uninterpreted. */
  function ResponseText(body: map<string, Json>, dumps: Json -> string): (t: string)
    ensures (Extract(body).Some? && Extract(body).value.JStr? && Strip(Extract(body).value.s) != "")
      ==> t == Normalise(Extract(body).value.s)
    ensures !(Extract(body).Some? && Extract(body).value.JStr? && Strip(Extract(body).value.s) != "")
      ==> t == dumps(JObj(body))
  {
    match Extract(body)
    case Some(JStr(x)) => if Strip(x) != "" then Normalise(x) else dumps(JObj(body))
    case _ => dumps(JObj(body))
  }

  /** A blank or non-string top-level "description" yields the serialised
      body even when "data" or "result" holds usable text. */
  lemma BlankDescriptionDumps(body: map<string, Json>, dumps: Json -> string)
    requires "description" in body
    requires !body["description"].JStr? || Strip(body["description"].s) == ""
    ensures ResponseText(body, dumps) == dumps(JObj(body))
  {
  }

  const Bullet: string := "\U{2022} "

  /** A line whose left-stripped form starts with "*" and a space or tab. */
  predicate IsStarBullet(line: string) {
    StartsWith(LStrip(line), "* ") || StartsWith(LStrip(line), "*\t")
  }

  /** Rewrites one line: a "*" bullet becomes a "•" bullet (its indentation
      dropped), every other line is kept verbatim. The third branch, for a
      "*" followed by three spaces, is written as in the source; it can never
      be taken. */
  function NormaliseLine(line: string): (r: string)
    ensures IsStarBullet(line) ==> r == Bullet + LStrip(line)[2..]
    ensures !IsStarBullet(line) ==> r == line
  {
    var l := LStrip(line);
    if StartsWith(l, "* ") then Bullet + l[2..]
    else if StartsWith(l, "*\t") then Bullet + l[2..]
    else if StartsWith(l, "*") && Contains(Take(l, 4), "   ") then
      ThreeSpacesImpliesStarSpace(l);
      assert false;
      Bullet + SliceFrom(l, Find(l, ' ') + 1)
    else line
  }

  /** Python's `s[k:]`. */
  function SliceFrom(s: string, k: int): (r: string)
    ensures 0 <= k <= |s| ==> r == s[k..]
    ensures k >= |s| ==> r == ""
  {
    if k < 0 then (if |s| + k <= 0 then s else s[|s| + k..])
    else if k >= |s| then ""
    else s[k..]
  }

  /** The guard of the third branch implies the guard of the first. */
  lemma ThreeSpacesImpliesStarSpace(l: string)
    requires StartsWith(l, "*") && Contains(Take(l, 4), "   ")
    ensures StartsWith(l, "* ")
  {
    var p := Take(l, 4);
    var i :| 0 <= i <= |p| && OccursAt(p, "   ", i);
    assert p[i..i + 3] == "   ";
    assert p[i] == p[i..i + 3][0] == ' ';
    assert p[i] == l[i];
    assert i == 1;
    assert l[1] == ' ';
    assert l[..2] == "* ";
  }

  /** A rewritten line is never a "*" bullet. */
  lemma NormaliseLineNotStar(line: string)
    ensures !IsStarBullet(NormaliseLine(line))
  {
    var r := NormaliseLine(line);
    if IsStarBullet(line) {
      assert r[0] == '\U{2022}' && !IsSpace(r[0]);
      assert LStrip(r) == r;
      assert r[0] != '*';
    }
  }

  /** A rewritten line is never rewritten again. */
  lemma NormaliseLineIdempotent(line: string)
    ensures NormaliseLine(NormaliseLine(line)) == NormaliseLine(line)
  {
    NormaliseLineNotStar(line);
  }

  /** Rewriting keeps a line free of '\n'. */
  lemma NormaliseLineNoNewline(line: string)
    requires '\n' !in line
    ensures '\n' !in NormaliseLine(line)
  {
    if IsStarBullet(line) {
      var l := LStrip(line);
      var k := |line| - |l| + 2;
      assert l[2..] == line[k..];
      assert '\n' !in Bullet;
    }
  }

  /** Each line rewritten. */
  function NormaliseLines(ls: seq<string>): (rs: seq<string>)
    ensures |rs| == |ls|
    ensures forall i {:trigger rs[i]} :: 0 <= i < |ls| ==> rs[i] == NormaliseLine(ls[i])
  {
    seq(|ls|, i requires 0 <= i < |ls| => NormaliseLine(ls[i]))
  }

  /** The line pass: split on '\n', rewrite each line, join with '\n'. The
      lines of the result are the rewritten input lines, in order, so there
      are as many of them. */
  function LinePass(s: string): (r: string)
    ensures Split(r) == NormaliseLines(Split(s))
    ensures |Split(r)| == |Split(s)|
  {
    RejoinRewritten(Split(s));
    Join(NormaliseLines(Split(s)))
  }

  /** Rewritten line-break-free lines come back from a join and a split. */
  lemma RejoinRewritten(ls: seq<string>)
    requires |ls| >= 1
    requires forall i :: 0 <= i < |ls| ==> '\n' !in ls[i]
    ensures Split(Join(NormaliseLines(ls))) == NormaliseLines(ls)
  {
    var rs := NormaliseLines(ls);
    forall i | 0 <= i < |rs|
      ensures '\n' !in rs[i]
    {
      NormaliseLineNoNewline(ls[i]);
    }
    SplitJoin(rs);
  }

  /** Applying the line pass twice is the same as applying it once. */
  lemma LinePassIdempotent(s: string)
    ensures LinePass(LinePass(s)) == LinePass(s)
  {
    var ls := Split(s);
    var once := NormaliseLines(ls);
    forall i | 0 <= i < |once|
      ensures NormaliseLines(once)[i] == once[i]
    {
      NormaliseLineIdempotent(ls[i]);
    }
    assert NormaliseLines(once) == once;
  }

  /** No line of the line pass's output is a "*" bullet. */
  lemma LinePassNoStarBullets(s: string)
    ensures forall i :: 0 <= i < |Split(LinePass(s))| ==> !IsStarBullet(Split(LinePass(s))[i])
  {
    var ls := Split(s);
    forall i | 0 <= i < |ls|
      ensures !IsStarBullet(NormaliseLines(ls)[i])
    {
      NormaliseLineNotStar(ls[i]);
    }
  }

  /** Text wrapped in one matching pair of `"` or `'`. */
  predicate IsQuoted(c: string) {
    (StartsWith(c, "\"") && EndsWith(c, "\"")) || (StartsWith(c, "'") && EndsWith(c, "'"))
  }

  /** Text that starts with '{' and ends with '}'. */
  predicate IsBraced(c: string) {
    StartsWith(c, "{") && EndsWith(c, "}")
  }

  /** Python's `c[1:-1]`: empty for a string of length one. */
  function Inner(c: string): (r: string)
    requires |c| >= 1
    ensures |c| >= 2 ==> r == c[1..|c| - 1]
    ensures |c| == 1 ==> r == ""
  {
    if |c| >= 2 then c[1..|c| - 1] else ""
  }

  /** The text after the prefix handling and before the line pass: stripped,
      with one layer of quotes removed and stripped again. */
  function Unquote(c: string): (r: string)
    requires IsStripped(c)
    ensures IsStripped(r)
    ensures !IsQuoted(c) ==> r == c
    ensures IsQuoted(c) ==> r == Strip(Inner(c))
  {
    if IsQuoted(c) then Strip(Inner(c)) else c
  }

  /** The display normalisation of ImageDescriber text. */
  function Normalise(text: string): (r: string)
    ensures IsBraced(Strip(text)) ==> r == Strip(text)
    ensures !IsBraced(Strip(text)) ==> Split(r) == NormaliseLines(Split(Unquote(Strip(text))))
    ensures !IsBraced(Strip(text)) ==>
      forall i :: 0 <= i < |Split(r)| ==> !IsStarBullet(Split(r)[i])
  {
    var cleaned := Strip(text);
    if IsBraced(cleaned) then cleaned
    else
      var u := Unquote(cleaned);
      LinePassNoStarBullets(u);
      LinePass(u)
  }

  /** Stripped object-looking text is passed through. */
  lemma NormaliseBraced(t: string)
    requires IsStripped(t) && IsBraced(t)
    ensures Normalise(t) == t
  {
    StripStripped(t);
  }

  /** Stripped quoted text loses its quotes and is stripped again. */
  lemma NormaliseQuoted(t: string)
    requires IsStripped(t) && IsQuoted(t) && !IsBraced(t)
    ensures Normalise(t) == LinePass(Strip(Inner(t)))
  {
    StripStripped(t);
  }

  /** Stripped plain text goes straight to the line pass. */
  lemma NormalisePlain(t: string)
    requires IsStripped(t) && !IsQuoted(t) && !IsBraced(t)
    ensures Normalise(t) == LinePass(t)
  {
    StripStripped(t);
  }

  /** The brace test runs before the quotes are looked at: an object is
      passed through, but a quoted object is unquoted and then goes through
      the line pass. */
  lemma BraceCheckBeforeQuotes(x: string)
    ensures Normalise("{" + x + "}") == "{" + x + "}"
    ensures Normalise("\"{" + x + "}\"") == LinePass("{" + x + "}")
  {
    var b := "{" + x + "}";
    NormaliseBraced(b);
    var q := "\"" + b + "\"";
    assert q == "\"{" + x + "}\"";
    assert Inner(q) == b;
    StripStripped(b);
    NormaliseQuoted(q);
  }

  /** A line without '\n' and without a bullet is its own line pass. */
  lemma LinePassSingleLine(s: string)
    requires '\n' !in s && !IsStarBullet(s)
    ensures LinePass(s) == s
  {
    assert IndexOf(s, '\n') == |s|;
    assert s[..|s|] == s;
    assert Split(s) == [s];
  }

  /** Quotes of either kind around any text are removed and the inside
      stripped. */
  lemma QuotesRemoved(x: string, quote: string)
    requires quote == "\"" || quote == "'"
    ensures Normalise(quote + x + quote) == LinePass(Strip(x))
  {
    var q := quote + x + quote;
    assert q[0] == quote[0] && q[|q| - 1] == quote[0];
    assert StartsWith(q, quote) && EndsWith(q, quote);
    assert Inner(q) == x;
    NormaliseQuoted(q);
  }

  /** Only one layer of quotes is removed, so normalising is not idempotent
      on doubly quoted text: the second pass removes the second layer. */
  lemma OneQuoteLayer(x: string)
    requires '\n' !in x
    ensures Normalise("\"" + ("'" + x + "'") + "\"") == "'" + x + "'"
    ensures Normalise("'" + x + "'") == LinePass(Strip(x))
  {
    QuotesRemoved("'" + x + "'", "\"");
    SingleQuotedLine(x);
    QuotesRemoved(x, "'");
  }

  /** Single-quoted text on one line is stripped and left alone by the line
      pass. */
  lemma SingleQuotedLine(x: string)
    requires '\n' !in x
    ensures LinePass(Strip("'" + x + "'")) == "'" + x + "'"
  {
    var inner := "'" + x + "'";
    StripStripped(inner);
    assert LStrip(inner) == inner;
    assert !IsStarBullet(inner);
    assert '\n' !in inner;
    LinePassSingleLine(inner);
  }

  /** A lone quote character is both the opening and the closing quote. */
  lemma LoneQuoteIsEmpty()
    ensures Normalise("\"") == ""
  {
    assert Inner("\"") == "";
    NormaliseQuoted("\"");
    StripStripped("");
    LinePassSingleLine("");
  }

  /** A line that starts with a non-space keeps that first character when
      rewritten, or gets the bullet there. */
  lemma NormaliseLineFirst(line: string)
    requires |line| > 0 && !IsSpace(line[0])
    ensures |NormaliseLine(line)| > 0
    ensures NormaliseLine(line)[0] == line[0] || NormaliseLine(line)[0] == '\U{2022}'
  {
    RewriteFirst(line, NormaliseLine(line));
  }

  /** A line that ends with a non-space keeps that last character when
      rewritten. */
  lemma NormaliseLineLast(line: string)
    requires |line| > 0 && !IsSpace(line[|line| - 1])
    ensures |NormaliseLine(line)| > 0
    ensures NormaliseLine(line)[|NormaliseLine(line)| - 1] == line[|line| - 1]
  {
    RewriteLast(line, NormaliseLine(line));
  }

  /** The first character of a line's rewrite `r`, stated for any `r` with
      the two cases of the rewrite. */
  lemma RewriteFirst(line: string, r: string)
    requires IsStarBullet(line) ==> r == Bullet + LStrip(line)[2..]
    requires !IsStarBullet(line) ==> r == line
    requires |line| > 0 && !IsSpace(line[0])
    ensures |r| > 0 && (r[0] == line[0] || r[0] == '\U{2022}')
  {
    if IsStarBullet(line) {
      assert r[0] == Bullet[0];
    }
  }

  /** The last character of a line's rewrite `r`, likewise. */
  lemma RewriteLast(line: string, r: string)
    requires IsStarBullet(line) ==> r == Bullet + LStrip(line)[2..]
    requires !IsStarBullet(line) ==> r == line
    requires |line| > 0 && !IsSpace(line[|line| - 1])
    ensures |r| > 0 && r[|r| - 1] == line[|line| - 1]
  {
    if IsStarBullet(line) {
      var l := LStrip(line);
      BulletBodyLast(line, l, r);
    }
  }

  /** Dropping the marker of a bullet suffix `l` keeps the line's last
      character, which is not whitespace and so not part of the marker. */
  lemma BulletBodyLast(line: string, l: string, r: string)
    requires |l| <= |line| && l == line[|line| - |l|..]
    requires StartsWith(l, "* ") || StartsWith(l, "*\t")
    requires r == Bullet + l[2..]
    requires |line| > 0 && !IsSpace(line[|line| - 1])
    ensures |r| > 0 && r[|r| - 1] == line[|line| - 1]
  {
    assert l[1] == ' ' || l[1] == '\t';
    assert l[|l| - 1] == line[|line| - 1];
    assert |l| >= 3;
    assert r[|r| - 1] == l[|l| - 1];
  }

  /** The first and last characters of stripped text decide whether it is
      quoted or an object. */
  lemma EndsDecideShape(a: string, b: string)
    requires |a| > 0 && |b| > 0 && a[0] == b[0] && a[|a| - 1] == b[|b| - 1]
    ensures IsQuoted(a) <==> IsQuoted(b)
    ensures IsBraced(a) <==> IsBraced(b)
  {
    assert a[..1] == [a[0]] && b[..1] == [b[0]];
    assert a[|a| - 1..] == [a[|a| - 1]] && b[|b| - 1..] == [b[|b| - 1]];
  }

  /** Text that starts with the bullet is neither quoted nor an object. */
  lemma BulletStartIsPlain(a: string)
    requires |a| > 0 && a[0] == '\U{2022}'
    ensures !IsQuoted(a) && !IsBraced(a)
  {
    assert a[..1] == [a[0]];
  }

  /** The first line of stripped non-empty text starts with its first
      character, and its last line ends with its last character. */
  lemma OuterLines(t: string)
    requires |t| > 0 && IsStripped(t)
    ensures var ls := Split(t); var e := ls[|ls| - 1];
      && |ls[0]| > 0 && ls[0][0] == t[0]
      && |e| > 0 && e[|e| - 1] == t[|t| - 1]
  {
    var ls := Split(t);
    JoinSplit(t);
    JoinFirst(ls);
    JoinLast(ls);
    assert IsSpace('\n');
  }

  /** Rewriting the lines keeps the last character of the joined text and
      keeps its first one or puts the bullet there, when neither is
      whitespace. */
  lemma RewrittenEnds(ls: seq<string>, first: char, last: char)
    requires |ls| >= 1
    requires |ls[0]| > 0 && ls[0][0] == first && !IsSpace(first)
    requires |ls[|ls| - 1]| > 0 && ls[|ls| - 1][|ls[|ls| - 1]| - 1] == last && !IsSpace(last)
    ensures |Join(NormaliseLines(ls))| > 0
    ensures Join(NormaliseLines(ls))[|Join(NormaliseLines(ls))| - 1] == last
    ensures Join(NormaliseLines(ls))[0] == first || Join(NormaliseLines(ls))[0] == '\U{2022}'
  {
    RewrittenLinesEnds(ls, NormaliseLines(ls), first, last);
  }

  /** The same, for lines `rs` of which only the outer two are known to be
      rewritten. */
  lemma RewrittenLinesEnds(ls: seq<string>, rs: seq<string>, first: char, last: char)
    requires |ls| >= 1 && |rs| == |ls|
    requires rs[0] == NormaliseLine(ls[0]) && rs[|rs| - 1] == NormaliseLine(ls[|ls| - 1])
    requires |ls[0]| > 0 && ls[0][0] == first && !IsSpace(first)
    requires |ls[|ls| - 1]| > 0 && ls[|ls| - 1][|ls[|ls| - 1]| - 1] == last && !IsSpace(last)
    ensures |Join(rs)| > 0
    ensures Join(rs)[|Join(rs)| - 1] == last
    ensures Join(rs)[0] == first || Join(rs)[0] == '\U{2022}'
  {
    NormaliseLineFirst(ls[0]);
    NormaliseLineLast(ls[|ls| - 1]);
    JoinEnds(rs, first, last);
  }

  /** A join whose first line starts with `first` or the bullet and whose
      last line ends with `last` starts and ends the same way. */
  lemma JoinEnds(rs: seq<string>, first: char, last: char)
    requires |rs| >= 1
    requires |rs[0]| > 0 && (rs[0][0] == first || rs[0][0] == '\U{2022}')
    requires |rs[|rs| - 1]| > 0 && rs[|rs| - 1][|rs[|rs| - 1]| - 1] == last
    ensures |Join(rs)| > 0
    ensures Join(rs)[|Join(rs)| - 1] == last
    ensures Join(rs)[0] == first || Join(rs)[0] == '\U{2022}'
  {
    JoinFirst(rs);
    JoinLast(rs);
  }

  /** The line pass of stripped non-empty text keeps its last character and
      keeps its first one or starts with the bullet instead. */
  lemma LinePassEnds(t: string)
    requires |t| > 0 && IsStripped(t)
    ensures |LinePass(t)| > 0 && LinePass(t)[|LinePass(t)| - 1] == t[|t| - 1]
    ensures LinePass(t)[0] == t[0] || LinePass(t)[0] == '\U{2022}'
  {
    OuterLines(t);
    RewrittenEnds(Split(t), t[0], t[|t| - 1]);
  }

  /** The line pass keeps stripped, unquoted, non-object text so. */
  lemma LinePassKeepsPlain(t: string)
    requires IsStripped(t) && !IsQuoted(t) && !IsBraced(t)
    ensures IsStripped(LinePass(t)) && !IsQuoted(LinePass(t)) && !IsBraced(LinePass(t))
  {
    var o := LinePass(t);
    if |t| == 0 {
      assert IndexOf(t, '\n') == 0;
      assert Split(t) == [t];
      assert NormaliseLines(Split(t)) == [NormaliseLine("")];
    } else {
      LinePassEnds(t);
      assert !IsSpace('\U{2022}');
      if o[0] == t[0] {
        EndsDecideShape(o, t);
      } else {
        BulletStartIsPlain(o);
      }
    }
  }

  /** Text that is already stripped, unquoted and not an object goes straight
      to the line pass, and normalising the result again changes nothing. */
  lemma NormaliseIdempotentOnPlainText(text: string)
    requires IsStripped(text) && !IsQuoted(text) && !IsBraced(text)
    ensures Normalise(text) == LinePass(text)
    ensures Normalise(Normalise(text)) == Normalise(text)
  {
    NormalisePlain(text);
    LinePassKeepsPlain(text);
    NormalisePlain(LinePass(text));
    LinePassIdempotent(text);
  }

  /** Normalising is idempotent on every text whose stripped form is not
      quoted: an object comes back as its stripped self, and any other text
      goes through the line pass, which is idempotent. */
  lemma NormaliseIdempotent(text: string)
    requires !IsQuoted(Strip(text))
    ensures Normalise(Normalise(text)) == Normalise(text)
  {
    var c := Strip(text);
    StripStripped(c);
    if IsBraced(c) {
      NormaliseBraced(c);
    } else {
      NormaliseIdempotentOnPlainText(c);
    }
  }

  /** "* " bullets on every line become "• " bullets. */
  lemma StarBulletsRewritten(items: seq<string>)
    requires |items| >= 1
    requires forall i :: 0 <= i < |items| ==> '\n' !in items[i]
    ensures LinePass(Join(StarLines(items))) == Join(BulletLines(items))
  {
    var stars := StarLines(items);
    forall i | 0 <= i < |stars|
      ensures '\n' !in stars[i]
    {
      assert stars[i] == "* " + items[i];
    }
    SplitJoin(stars);
    forall i | 0 <= i < |stars|
      ensures NormaliseLine(stars[i]) == BulletLines(items)[i]
    {
      StarLineRewritten(items[i]);
    }
    assert NormaliseLines(stars) == BulletLines(items);
  }

  /** One "* " line becomes a "• " line. */
  lemma StarLineRewritten(item: string)
    ensures NormaliseLine("* " + item) == Bullet + item
  {
    var line := "* " + item;
    assert !IsSpace(line[0]);
    assert LStrip(line) == line;
    assert line[..2] == "* ";
    assert line[2..] == item;
  }

  function StarLines(items: seq<string>): (r: seq<string>)
    ensures |r| == |items| && forall i :: 0 <= i < |items| ==> r[i] == "* " + items[i]
  {
    seq(|items|, i requires 0 <= i < |items| => "* " + items[i])
  }

  function BulletLines(items: seq<string>): (r: seq<string>)
    ensures |r| == |items| && forall i :: 0 <= i < |items| ==> r[i] == Bullet + items[i]
  {
    seq(|items|, i requires 0 <= i < |items| => Bullet + items[i])
  }
}
