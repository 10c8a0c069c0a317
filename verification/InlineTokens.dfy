/** The inline agent-token list `id1=token1,id2=token2` and the table the broker looks tokens up in. */
module InlineTokens {
  import opened Wrappers
  import Codec

  type Token = string

  datatype Malformed = NoEqualsSign | EmptyId | EmptyToken

  // ---- pieces of text --------------------------------------------------------------

  predicate Blank(s: string) {
    forall c <- s :: Codec.IsSpace(c)
  }

  /** Neither starts nor ends with white space. */
  predicate Trimmed(s: string) {
    s != "" ==> !Codec.IsSpace(s[0]) && !Codec.IsSpace(s[|s| - 1])
  }

  /** Everything after the first `sep`. */
  function After(s: string, sep: char): string {
    if s == "" then "" else if s[0] == sep then s[1..] else After(s[1..], sep)
  }

  /** Python's `text.split(sep)`: one piece more than there are separators. */
  function Split(s: string, sep: char): (pieces: seq<string>)
    ensures pieces != []
  {
    if s == "" then [""]
    else
      var rest := Split(s[1..], sep);
      if s[0] == sep then [""] + rest else [[s[0]] + rest[0]] + rest[1..]
  }

  function Join(pieces: seq<string>, sep: char): string {
    if pieces == [] then ""
    else if |pieces| == 1 then pieces[0]
    else pieces[0] + [sep] + Join(pieces[1..], sep)
  }

  lemma {:induction false} SplitPrefix(piece: string, s: string, sep: char)
    requires sep !in piece
    ensures Split(piece + [sep] + s, sep) == [piece] + Split(s, sep)
    decreases |piece|
  {
    if piece == "" {
      assert ("" + [sep] + s)[1..] == s;
    } else {
      SplitPrefix(piece[1..], s, sep);
      assert (piece + [sep] + s)[1..] == piece[1..] + [sep] + s;
      assert [piece[0]] + piece[1..] == piece;
    }
  }

  lemma {:induction false} SplitWhole(piece: string, sep: char)
    requires sep !in piece
    ensures Split(piece, sep) == [piece]
    decreases |piece|
  {
    if piece != "" {
      SplitWhole(piece[1..], sep);
      assert [piece[0]] + piece[1..] == piece;
    }
  }

  lemma {:induction false} SplitUndoesJoin(pieces: seq<string>, sep: char)
    requires pieces != [] && forall p <- pieces :: sep !in p
    ensures Split(Join(pieces, sep), sep) == pieces
    decreases |pieces|
  {
    if |pieces| == 1 {
      SplitWhole(pieces[0], sep);
    } else {
      SplitUndoesJoin(pieces[1..], sep);
      SplitPrefix(pieces[0], Join(pieces[1..], sep), sep);
    }
  }

  lemma {:induction false} TrimLeftDrops(b: string, s: string)
    requires Blank(b) && (s != "" ==> !Codec.IsSpace(s[0]))
    ensures Codec.TrimLeft(b + s) == s
    decreases |b|
  {
    if b == "" {
      assert b + s == s;
    } else {
      assert Blank(b[1..]);
      TrimLeftDrops(b[1..], s);
      assert (b + s)[1..] == b[1..] + s;
    }
  }

  lemma {:induction false} TrimRightDrops(s: string, b: string)
    requires Blank(b) && (s != "" ==> !Codec.IsSpace(s[|s| - 1]))
    ensures Codec.TrimRight(s + b) == s
    decreases |b|
  {
    if b == "" {
      assert s + b == s;
    } else {
      var n := |b| - 1;
      assert Blank(b[..n]);
      TrimRightDrops(s, b[..n]);
      assert (s + b)[..|s + b| - 1] == s + b[..n];
    }
  }

  /** Blanks around a trimmed text are exactly what trimming takes off. */
  lemma TrimPadded(left: string, s: string, right: string)
    requires Blank(left) && Blank(right) && Trimmed(s)
    ensures Codec.Trim(left + s + right) == s
  {
    if s == "" {
      TrimLeftDrops(left + right, "");
      assert left + s + right == left + right + "";
    } else {
      TrimLeftDrops(left, s + right);
      assert left + s + right == left + (s + right);
      TrimRightDrops(s, right);
    }
  }

  lemma {:induction false} TrimLeftSplits(s: string) returns (b: string)
    ensures Blank(b) && s == b + Codec.TrimLeft(s)
    ensures Codec.TrimLeft(s) != "" ==> !Codec.IsSpace(Codec.TrimLeft(s)[0])
    decreases |s|
  {
    if s != "" && Codec.IsSpace(s[0]) {
      var rest := TrimLeftSplits(s[1..]);
      b := [s[0]] + rest;
    } else {
      b := "";
    }
  }

  lemma {:induction false} TrimRightSplits(s: string) returns (b: string)
    ensures Blank(b) && s == Codec.TrimRight(s) + b
    ensures Codec.TrimRight(s) != "" ==> !Codec.IsSpace(Codec.TrimRight(s)[|Codec.TrimRight(s)| - 1])
    decreases |s|
  {
    if s != "" && Codec.IsSpace(s[|s| - 1]) {
      var rest := TrimRightSplits(s[..|s| - 1]);
      b := rest + [s[|s| - 1]];
      assert s == s[..|s| - 1] + [s[|s| - 1]];
    } else {
      b := "";
    }
  }

  lemma TrimSplits(s: string) returns (left: string, right: string)
    ensures Blank(left) && Blank(right) && Trimmed(Codec.Trim(s)) && s == left + Codec.Trim(s) + right
  {
    left := TrimLeftSplits(s);
    right := TrimRightSplits(Codec.TrimLeft(s));
    assert Codec.Trim(s) != "" ==> Codec.Trim(s)[0] == Codec.TrimLeft(s)[0];
  }

  lemma {:induction false} PartitionAt(left: string, right: string, sep: char)
    requires sep !in left
    ensures Codec.Before(left + [sep] + right, sep) == left && After(left + [sep] + right, sep) == right
    decreases |left|
  {
    if left == "" {
      assert ("" + [sep] + right)[1..] == right;
    } else {
      PartitionAt(left[1..], right, sep);
      assert (left + [sep] + right)[1..] == left[1..] + [sep] + right;
      assert [left[0]] + left[1..] == left;
    }
  }

  lemma {:induction false} PartitionSplits(s: string, sep: char)
    requires sep in s
    ensures s == Codec.Before(s, sep) + [sep] + After(s, sep) && sep !in Codec.Before(s, sep)
    decreases |s|
  {
    if s[0] == sep {
      assert s == "" + [sep] + s[1..];
    } else {
      PartitionSplits(s[1..], sep);
      assert s == [s[0]] + s[1..];
    }
  }

  // ---- one entry -----------------------------------------------------------------------

  datatype Entry = Entry(id: AgentId, token: Token)

  /** What the parser makes of the text between two commas. */
  function ParseEntry(text: string): Result<Option<Entry>, Malformed> {
    var e := Codec.Trim(text);
    var id := Codec.Trim(Codec.Before(e, '='));
    var token := Codec.Trim(After(e, '='));
    if e == "" then Ok(None)
    else if '=' !in e then Err(NoEqualsSign)
    else if id == "" then Err(EmptyId)
    else if token == "" then Err(EmptyToken)
    else Ok(Some(Entry(id, token)))
  }

  /** An entry that can be written down: a token may contain `=`, an id may not. */
  predicate Writable(e: Entry) {
    && e.id != "" && Trimmed(e.id) && '=' !in e.id
    && e.token != "" && Trimmed(e.token)
  }

  function Written(e: Entry, a: string, b: string, c: string, d: string): string {
    a + e.id + b + "=" + c + e.token + d
  }

  /** `text` is `id=token` with blanks anywhere around the two parts. */
  ghost predicate Writes(text: string, e: Entry) {
    exists a, b, c, d :: Blank(a) && Blank(b) && Blank(c) && Blank(d) && text == Written(e, a, b, c, d)
  }

  /** An entry without the blanks around it. */
  function Core(e: Entry, b: string, c: string): string {
    (e.id + b) + ['='] + (c + e.token)
  }

  lemma WrittenCore(e: Entry, a: string, b: string, c: string, d: string)
    ensures Written(e, a, b, c, d) == a + Core(e, b, c) + d
  {
  }

  lemma CoreParts(e: Entry, b: string, c: string)
    requires Writable(e) && Blank(b) && Blank(c)
    ensures Core(e, b, c) != "" && Trimmed(Core(e, b, c)) && '=' in Core(e, b, c)
    ensures Codec.Before(Core(e, b, c), '=') == e.id + b && After(Core(e, b, c), '=') == c + e.token
    ensures Codec.Trim(e.id + b) == e.id && Codec.Trim(c + e.token) == e.token
  {
    var core := Core(e, b, c);
    assert core[0] == e.id[0] && core[|core| - 1] == e.token[|e.token| - 1] && core[|e.id + b|] == '=';
    PartitionAt(e.id + b, c + e.token, '=');
    TrimPadded("", e.id, b);
    TrimPadded(c, e.token, "");
    assert "" + e.id + b == e.id + b && c + e.token + "" == c + e.token;
  }

  lemma WrittenParses(text: string, e: Entry)
    requires Writable(e) && Writes(text, e)
    ensures ParseEntry(text) == Ok(Some(e))
  {
    var a, b, c, d :| Blank(a) && Blank(b) && Blank(c) && Blank(d) && text == Written(e, a, b, c, d);
    WrittenCore(e, a, b, c, d);
    CoreParts(e, b, c);
    TrimPadded(a, Core(e, b, c), d);
  }

  lemma BlankJoin(a: string, b: string)
    requires Blank(a) && Blank(b)
    ensures Blank(a + b)
  {
  }

  lemma Reassociate(left: string, l: string, e: Entry, b: string, c: string, r: string, right: string)
    ensures left + ((l + e.id + b) + ['='] + (c + e.token + r)) + right == Written(e, left + l, b, c, r + right)
  {
    var x, y := e.id + b + ['='] + c + e.token, r + right;
    assert (l + e.id + b) + ['='] + (c + e.token + r) == l + x + r;
    assert left + (l + x + r) + right == (left + l) + x + y;
  }

  lemma PartFree(left: string, part: string, right: string, sep: char)
    requires sep !in left + part + right
    ensures sep !in part
  {
    forall i | 0 <= i < |part| ensures part[i] != sep { assert (left + part + right)[|left| + i] == part[i]; }
  }

  lemma ParsedIsWritten(text: string, e: Entry)
    requires ParseEntry(text) == Ok(Some(e))
    ensures Writable(e) && Writes(text, e)
  {
    var core := Codec.Trim(text);
    var left, right := TrimSplits(text);
    PartitionSplits(core, '=');
    var before, after := Codec.Before(core, '='), After(core, '=');
    var l, b := TrimSplits(before);
    var c, r := TrimSplits(after);
    PartFree(l, e.id, b, '=');
    Reassociate(left, l, e, b, c, r, right);
    BlankJoin(left, l);
    BlankJoin(r, right);
    assert text == Written(e, left + l, b, c, r + right);
  }

  /** An entry is read as `e` exactly when it is a way of writing `e`. */
  lemma EntryParsesExactly(text: string, e: Entry)
    ensures ParseEntry(text) == Ok(Some(e)) <==> Writable(e) && Writes(text, e)
  {
    if ParseEntry(text) == Ok(Some(e)) { ParsedIsWritten(text, e); }
    if Writable(e) && Writes(text, e) { WrittenParses(text, e); }
  }

  lemma BlankSkipped(text: string)
    ensures ParseEntry(text) == Ok(None) <==> Blank(text)
  {
    if Blank(text) {
      TrimPadded(text, "", "");
      assert text + "" + "" == text;
    }
    if Codec.Trim(text) == "" {
      var left, right := TrimSplits(text);
      assert text == left + right;
    }
  }

  // ---- the whole list ------------------------------------------------------------------

  type Read = Result<Option<Entry>, Malformed>

  /** What the parser makes of each piece. */
  function ParseAll(pieces: seq<string>): seq<Read> {
    seq(|pieces|, i requires 0 <= i < |pieces| => ParseEntry(pieces[i]))
  }

  /** The table that a list of entries denotes: the first bad entry is fatal, the last token of an id wins. */
  function TableOf(entries: seq<Read>): Result<map<AgentId, Token>, Malformed> {
    if entries == [] then Ok(map[])
    else
      var n := |entries| - 1;
      match TableOf(entries[..n])
      case Err(problem) => Err(problem)
      case Ok(table) =>
        match entries[n]
        case Err(problem) => Err(problem)
        case Ok(None) => Ok(table)
        case Ok(Some(e)) => Ok(table[e.id := e.token])
  }

  lemma {:induction false} ErrorsStay(entries: seq<Read>, i: nat)
    requires i <= |entries| && TableOf(entries[..i]).Err?
    ensures TableOf(entries) == TableOf(entries[..i])
    decreases |entries|
  {
    if i < |entries| {
      var n := |entries| - 1;
      assert entries[..n][..i] == entries[..i];
      ErrorsStay(entries[..n], i);
    } else {
      assert entries[..i] == entries;
    }
  }

  method ParseInlineTokens(raw: string) returns (result: Result<map<AgentId, Token>, Malformed>)
    ensures result == TableOf(ParseAll(Split(raw, ',')))
  {
    var entries := Split(raw, ',');
    ghost var all := ParseAll(entries);
    var tokens: map<AgentId, Token> := map[];
    for i := 0 to |entries|
      invariant TableOf(all[..i]) == Ok(tokens)
    {
      assert all[..i + 1][..i] == all[..i] && all[i] == ParseEntry(entries[i]);
      var entry := Codec.Trim(entries[i]);
      if entry == "" { continue; }
      if '=' !in entry {
        ErrorsStay(all, i + 1);
        return Err(NoEqualsSign);
      }
      var id := Codec.Trim(Codec.Before(entry, '='));
      var token := Codec.Trim(After(entry, '='));
      if id == "" {
        ErrorsStay(all, i + 1);
        return Err(EmptyId);
      }
      if token == "" {
        ErrorsStay(all, i + 1);
        return Err(EmptyToken);
      }
      tokens := tokens[id := token];
    }
    assert all[..|entries|] == all;
    result := Ok(tokens);
  }

  // ---- parsing undoes printing ---------------------------------------------------------

  /** `text` is blank, or writes the pair of the agent it is for. */
  ghost predicate WritesFor(text: string, who: Option<AgentId>, table: map<AgentId, Token>) {
    match who
    case None => Blank(text)
    case Some(a) => a in table && Writes(text, Entry(a, table[a]))
  }

  /**
   * `entries` is a way of writing `table` down: `whose` says which agent each entry is for, if any,
   * and every agent has at least one entry, in any order.
   */
  ghost predicate WritesTable(entries: seq<string>, whose: seq<Option<AgentId>>, table: map<AgentId, Token>) {
    && |whose| == |entries|
    && (forall i :: 0 <= i < |entries| ==> WritesFor(entries[i], whose[i], table))
    && (forall a <- table :: Some(a) in whose)
  }

  predicate WritableTable(table: map<AgentId, Token>) {
    forall a <- table :: Writable(Entry(a, table[a]))
  }

  /** What the parser is to read for an agent, or for a blank. */
  function EntryFor(who: Option<AgentId>, table: map<AgentId, Token>): Option<Entry>
    requires who.Some? ==> who.value in table
  {
    if who.None? then None else Some(Entry(who.value, table[who.value]))
  }

  ghost predicate ReadsFor(r: Read, who: Option<AgentId>, table: map<AgentId, Token>) {
    (who.Some? ==> who.value in table) && r == Ok(EntryFor(who, table))
  }

  lemma WrittenReads(text: string, who: Option<AgentId>, table: map<AgentId, Token>)
    requires WritableTable(table) && WritesFor(text, who, table)
    ensures ReadsFor(ParseEntry(text), who, table)
  {
    if who.None? { BlankSkipped(text); } else { WrittenParses(text, Entry(who.value, table[who.value])); }
  }

  /** `found` is the part of `table` that `whose` names. */
  ghost predicate PartNamed(found: map<AgentId, Token>, whose: seq<Option<AgentId>>, table: map<AgentId, Token>) {
    && (forall a :: a in found <==> Some(a) in whose)
    && (forall a <- found :: a in table && found[a] == table[a])
  }

  lemma OneMoreNamed(found: map<AgentId, Token>, whose: seq<Option<AgentId>>, table: map<AgentId, Token>,
                     who: Option<AgentId>)
    requires PartNamed(found, whose, table) && (who.Some? ==> who.value in table)
    ensures PartNamed(if who.None? then found else found[who.value := table[who.value]], whose + [who], table)
  {
    forall w ensures w in whose + [who] <==> w in whose || w == who {}
  }

  lemma {:induction false} TableOfRead(entries: seq<Read>, whose: seq<Option<AgentId>>, table: map<AgentId, Token>)
    requires |whose| == |entries| && forall i :: 0 <= i < |entries| ==> ReadsFor(entries[i], whose[i], table)
    ensures TableOf(entries).Ok? && PartNamed(TableOf(entries).value, whose, table)
    decreases |entries|
  {
    if entries != [] {
      var n := |entries| - 1;
      TableOfRead(entries[..n], whose[..n], table);
      assert ReadsFor(entries[n], whose[n], table);
      OneMoreNamed(TableOf(entries[..n]).value, whose[..n], table, whose[n]);
      assert whose == whose[..n] + [whose[n]];
    }
  }

  lemma WholeNamed(found: map<AgentId, Token>, whose: seq<Option<AgentId>>, table: map<AgentId, Token>)
    requires PartNamed(found, whose, table) && forall a <- table :: Some(a) in whose
    ensures found == table
  {
    assert found.Keys == table.Keys;
  }

  lemma WrittenTable(entries: seq<string>, whose: seq<Option<AgentId>>, table: map<AgentId, Token>)
    requires WritableTable(table) && WritesTable(entries, whose, table)
    ensures TableOf(ParseAll(entries)) == Ok(table)
  {
    forall i | 0 <= i < |entries| ensures ReadsFor(ParseAll(entries)[i], whose[i], table) {
      WrittenReads(entries[i], whose[i], table);
    }
    TableOfRead(ParseAll(entries), whose, table);
    WholeNamed(TableOf(ParseAll(entries)).value, whose, table);
  }

  /**
   * Joining any way of writing a table with commas parses back to the table: extra blanks, empty
   * entries, order and repetition do not matter.
   */
  lemma ParsingUndoesPrinting(entries: seq<string>, whose: seq<Option<AgentId>>, table: map<AgentId, Token>)
    requires WritableTable(table) && WritesTable(entries, whose, table)
    requires forall text <- entries :: ',' !in text
    ensures TableOf(ParseAll(Split(Join(entries, ','), ','))) == Ok(table)
  {
    WrittenTable(entries, whose, table);
    if entries == [] { EmptyList(); } else { SplitUndoesJoin(entries, ','); }
  }

  lemma EmptyList()
    ensures TableOf(ParseAll([""])) == Ok(map[])
  {
    BlankSkipped("");
    assert ParseAll([""])[0] == Ok(None);
    assert ParseAll([""])[..0] == [];
  }

  /** Every table that parsing yields can be written down again. */
  lemma {:induction false} ParsedTableIsWritable(pieces: seq<string>)
    ensures TableOf(ParseAll(pieces)).Ok? ==> WritableTable(TableOf(ParseAll(pieces)).value)
    decreases |pieces|
  {
    if pieces != [] {
      var n := |pieces| - 1;
      ParsedTableIsWritable(pieces[..n]);
      assert ParseAll(pieces)[..n] == ParseAll(pieces[..n]);
      var last := ParseAll(pieces)[n];
      if last.Ok? && last.value.Some? { EntryParsesExactly(pieces[n], last.value.value); }
    }
  }

  /** A list is refused exactly when one of its entries is. */
  lemma {:induction false} RefusedExactly(entries: seq<Read>)
    ensures TableOf(entries).Err? <==> exists r <- entries :: r.Err?
    decreases |entries|
  {
    if entries != [] {
      var n := |entries| - 1;
      RefusedExactly(entries[..n]);
      assert forall r <- entries :: r in entries[..n] || r == entries[n];
    }
  }

  // ---- the broker's lookup table -------------------------------------------------------

  /** Every token leads to an agent that has it. */
  ghost predicate LeadsBack(byToken: map<Token, AgentId>, tokens: map<AgentId, Token>) {
    && byToken.Keys == tokens.Values
    && forall t <- byToken :: byToken[t] in tokens && tokens[byToken[t]] == t
  }

  method InvertTokens(tokens: map<AgentId, Token>) returns (byToken: map<Token, AgentId>)
    ensures LeadsBack(byToken, tokens)
  {
    byToken := map[];
    var rest := tokens;
    while rest != map[]
      invariant rest.Keys <= tokens.Keys && forall a <- rest :: rest[a] == tokens[a]
      invariant forall a <- tokens :: a in rest || tokens[a] in byToken
      invariant forall t <- byToken :: byToken[t] in tokens && tokens[byToken[t]] == t
      decreases rest.Keys
    {
      var a :| a in rest;
      byToken := byToken[tokens[a] := a];
      rest := rest - {a};
    }
  }

  ghost predicate Inverse(byToken: map<Token, AgentId>, tokens: map<AgentId, Token>) {
    forall a, t :: (t in byToken && byToken[t] == a) <==> (a in tokens && tokens[a] == t)
  }

  predicate Distinct(tokens: map<AgentId, Token>) {
    forall a <- tokens, b <- tokens | a != b :: tokens[a] != tokens[b]
  }

  /** The lookup table identifies every agent by its token exactly when no two agents share one. */
  lemma InverseExactlyWhenDistinct(tokens: map<AgentId, Token>, byToken: map<Token, AgentId>)
    requires LeadsBack(byToken, tokens)
    ensures Inverse(byToken, tokens) <==> Distinct(tokens)
  {
    if Distinct(tokens) {
      forall a <- tokens ensures tokens[a] in byToken && byToken[tokens[a]] == a {
        assert tokens[a] in tokens.Values;
        var b := byToken[tokens[a]];
        assert tokens[b] == tokens[a];
      }
    }
    if Inverse(byToken, tokens) {
      forall a <- tokens, b <- tokens | a != b ensures tokens[a] != tokens[b] {
        assert byToken[tokens[a]] == a && byToken[tokens[b]] == b;
      }
    }
  }
}
