/**
 * The token-hash file (internal/api/auth.go): one hash per line, an optional
 * label, an optional trailing scope field. A field that looks like a scope
 * must never be read as a label, which would leave the token unscoped.
 */
module Tokens {
  import opened Options

  /** The actions an identity may take, by name. None is unscoped; an empty set authorizes nothing. */
  type Scope = Option<set<string>>

  datatype TokenLine = TokenLine(hash: string, actor: string, allowed: Scope)

  datatype LineError = NotLast(field: string) | NotAScope(field: string) | UnknownAction(name: string)

  datatype FileError = BadLine(number: nat, error: LineError) | TooLong(number: nat)

  const SCOPE := "scope"
  const SCOPE_PREFIX := "scope="
  const FALLBACK := "cli"
  const MAX_LINE: nat := 65536  // bufio.Scanner's default bound

  predicate Allows(scope: Scope, a: string) {
    scope.None? || a in scope.value
  }

  // ---- Strings ------------------------------------------------------------------

  predicate IsSpace(c: char) {
    || c in "\t\n\r "
    || c in ['\U{0B}', '\U{0C}', '\U{85}', '\U{A0}', '\U{1680}',
             '\U{2028}', '\U{2029}', '\U{202F}', '\U{205F}', '\U{3000}']
      || '\U{2000}' <= c <= '\U{200A}'
  }

  /** Among ASCII characters, the controls from tab to carriage return, and the blank. */
  lemma AsciiSpace(c: char)
    requires c as int < 128
    ensures IsSpace(c) <==> 9 <= c as int <= 13 || c as int == 32
  {
    assert c in "\t\n\r " <==> c as int in {9, 10, 13, 32};
    assert '\U{0B}' as int == 11 && '\U{0C}' as int == 12;
  }

  function Lower(s: string): (r: string)
    ensures |r| == |s|
  {
    seq(|s|, (k: nat) requires k < |s| =>
      if 'A' <= s[k] <= 'Z' then (s[k] as int - 'A' as int + 'a' as int) as char else s[k])
  }

  predicate HasPrefix(s: string, prefix: string) {
    |prefix| <= |s| && s[..|prefix|] == prefix
  }

  /** How far a string runs before a character of the given kind. */
  function Run(s: string, stop: char -> bool): (n: nat)
    ensures n <= |s|
  {
    if s == "" || stop(s[0]) then 0 else 1 + Run(s[1..], stop)
  }

  lemma {:induction false} RunOf(word: string, tail: string, stop: char -> bool)
    requires (forall c :: c in word ==> !stop(c)) && (tail != "" ==> stop(tail[0]))
    ensures Run(word + tail, stop) == |word|
  {
    if word == "" {
      assert word + tail == tail;
    } else {
      assert word[0] in word && (word + tail)[1..] == word[1..] + tail;
      RunOf(word[1..], tail, stop);
    }
  }

  function Is(c: char): char -> bool { x => x == c }

  /** strings.Fields */
  function Fields(s: string): seq<string>
    decreases |s|
  {
    if s == "" then []
    else if IsSpace(s[0]) then Fields(s[1..])
    else [s[..Run(s, IsSpace)]] + Fields(s[Run(s, IsSpace)..])
  }

  /** strings.Split on one character */
  function Split(s: string, sep: char): seq<string>
    decreases |s|
  {
    var n := Run(s, Is(sep));
    if n == |s| then [s] else [s[..n]] + Split(s[n + 1..], sep)
  }

  function Join(parts: seq<string>, sep: char): string {
    if parts == [] then ""
    else if |parts| == 1 then parts[0]
    else parts[0] + [sep] + Join(parts[1..], sep)
  }

  /** The lines bufio.ScanLines cuts, before a trailing carriage return is dropped. */
  function Lines(data: string): seq<string>
    decreases |data|
  {
    if data == "" then []
    else
      var n := Run(data, Is('\n'));
      [data[..n]] + (if n == |data| then [] else Lines(data[n + 1..]))
  }

  function DropCR(line: string): string {
    if line != "" && line[|line| - 1] == '\r' then line[..|line| - 1] else line
  }

  function TrimSpace(s: string): (r: string)
    ensures r != "" ==> !IsSpace(r[0])
    decreases |s|
  {
    if s == "" then ""
    else if IsSpace(s[0]) then TrimSpace(s[1..])
    else if IsSpace(s[|s| - 1]) then TrimSpace(s[..|s| - 1])
    else s
  }

  /** A field as it can stand on a line: not empty, no space in it. */
  predicate IsWord(s: string) {
    s != "" && forall c :: c in s ==> !IsSpace(c)
  }

  /** The first word of a text is its first field. */
  lemma FieldFirst(word: string, tail: string)
    requires IsWord(word) && (tail != "" ==> IsSpace(tail[0]))
    ensures Fields(word + tail) == [word] + Fields(tail)
  {
    var text := word + tail;
    assert word[0] in word && text[0] == word[0];
    RunOf(word, tail, IsSpace);
    assert text[..|word|] == word && text[|word|..] == tail;
  }

  lemma JoinHead(words: seq<string>, sep: char)
    requires |words| > 1
    ensures Join(words, sep) == words[0] + ([sep] + Join(words[1..], sep))
  {
  }

  lemma {:induction false} FieldsOfJoin(words: seq<string>)
    requires forall w :: w in words ==> IsWord(w)
    ensures Fields(Join(words, ' ')) == words
  {
    if |words| == 1 {
      FieldFirst(words[0], "");
      assert words[0] + "" == words[0];
    } else if words != [] {
      var (rest, tail) := (Join(words[1..], ' '), [' '] + Join(words[1..], ' '));
      assert words[0] in words;
      FieldsOfJoin(words[1..]);
      JoinHead(words, ' ');
      FieldFirst(words[0], tail);
      assert tail[1..] == rest;
    }
  }

  /** Words with something before, between and after them. */
  function Spread(gaps: seq<string>, words: seq<string>): string
    requires |gaps| == |words| + 1
  {
    if words == [] then gaps[0] else gaps[0] + (words[0] + Spread(gaps[1..], words[1..]))
  }

  predicate IsBlank(s: string) {
    forall c :: c in s ==> c == ' ' || c == '\t'
  }

  lemma {:induction false} FieldsSkip(gap: string, tail: string)
    requires IsBlank(gap)
    ensures Fields(gap + tail) == Fields(tail)
  {
    if gap == "" {
      assert gap + tail == tail;
    } else {
      assert gap[0] in gap && (gap + tail)[1..] == gap[1..] + tail;
      assert forall c :: c in gap[1..] ==> c in gap;
      FieldsSkip(gap[1..], tail);
    }
  }

  /** However many blanks and tabs stand around them, the fields of a line are its words. */
  lemma {:induction false} FieldsOfSpread(gaps: seq<string>, words: seq<string>)
    requires |gaps| == |words| + 1 && (forall g :: g in gaps ==> IsBlank(g)) && forall w :: w in words ==> IsWord(w)
    requires forall k :: 0 < k < |words| ==> gaps[k] != ""
    ensures Fields(Spread(gaps, words)) == words
  {
    assert gaps[0] in gaps;
    if words == [] {
      assert gaps[0] + "" == gaps[0];
      FieldsSkip(gaps[0], "");
    } else {
      var tail := Spread(gaps[1..], words[1..]);
      assert words[0] in words && gaps[1] in gaps;
      FieldsOfSpread(gaps[1..], words[1..]);
      assert tail != "" ==> IsSpace(tail[0]) by {
        if gaps[1] != "" { assert tail[0] == gaps[1][0] && gaps[1][0] in gaps[1]; }
      }
      FieldFirst(words[0], tail);
      FieldsSkip(gaps[0], words[0] + tail);
    }
  }

  /** What stands before the first separator is the first part. */
  lemma SplitFirst(part: string, rest: string, sep: char)
    requires sep !in part
    ensures Split(part, sep) == [part] && Split(part + ([sep] + rest), sep) == [part] + Split(rest, sep)
  {
    RunOf(part, "", Is(sep));
    assert part + "" == part;
    RunOf(part, [sep] + rest, Is(sep));
    var text := part + ([sep] + rest);
    assert text[..|part|] == part && text[|part| + 1..] == rest;
  }

  lemma {:induction false} SplitOfJoin(parts: seq<string>, sep: char)
    requires parts != [] && forall p :: p in parts ==> sep !in p
    ensures Split(Join(parts, sep), sep) == parts
  {
    assert parts[0] in parts;
    if |parts| == 1 {
      SplitFirst(parts[0], "", sep);
    } else {
      SplitOfJoin(parts[1..], sep);
      SplitFirst(parts[0], Join(parts[1..], sep), sep);
      assert Join(parts, sep) == parts[0] + ([sep] + Join(parts[1..], sep));
    }
  }

  // ---- Scopes -------------------------------------------------------------------

  /** The actions this daemon offers. */
  predicate Known(name: string) {
    name == "deploy" || name == "rollback" || name == "converge"
  }

  function FirstUnknown(names: seq<string>): (n: nat)
    ensures n <= |names| && (forall k :: 0 <= k < n ==> Known(names[k])) && (n < |names| ==> !Known(names[n]))
  {
    if names == [] || !Known(names[0]) then 0 else 1 + FirstUnknown(names[1..])
  }

  function ToSet(names: seq<string>): set<string> {
    set n | n in names
  }

  /** What the text after "scope=" authorizes; its first unknown name refuses it. */
  function ScopeOf(field: string): Result<set<string>, LineError> {
    if field == "" then Ok({})
    else
      var names := Split(field, ',');
      var n := FirstUnknown(names);
      if n < |names| then Err(UnknownAction(names[n])) else Ok(ToSet(names))
  }

  method ParseScope(field: string) returns (r: Result<set<string>, LineError>)
    ensures r == ScopeOf(field)
  {
    var allowed: set<string> := {};
    if field == "" {
      return Ok(allowed);
    }
    var names := Split(field, ',');
    for i := 0 to |names|
      invariant i <= FirstUnknown(names)
      invariant allowed == ToSet(names[..i])
    {
      if !Known(names[i]) {
        return Err(UnknownAction(names[i]));
      }
      assert names[..i + 1] == names[..i] + [names[i]];
      allowed := allowed + {names[i]};
    }
    assert names[..|names|] == names;
    r := Ok(allowed);
  }

  // ---- Lines --------------------------------------------------------------------

  /** A field meant as a scope, however it is written. */
  predicate LooksLikeScope(field: string) {
    HasPrefix(Lower(field), SCOPE)
  }

  function FirstScope(fields: seq<string>): (n: nat)
    ensures n <= |fields| && (forall k :: 0 <= k < n ==> !LooksLikeScope(fields[k]))
    ensures n < |fields| ==> LooksLikeScope(fields[n])
  {
    if fields == [] || LooksLikeScope(fields[0]) then 0 else 1 + FirstScope(fields[1..])
  }

  function LabelOf(words: seq<string>): string {
    if Join(words, ' ') != "" then Join(words, ' ') else FALLBACK
  }

  /** What a line of these fields means: it is refused unless its only scope-like field is a scope in last place. */
  function Meaning(fields: seq<string>): Result<TokenLine, LineError>
    requires fields != []
  {
    var (hash, rest) := (Lower(fields[0]), fields[1..]);
    var n := FirstScope(rest);
    if n == |rest| then Ok(TokenLine(hash, LabelOf(rest), None))
    else if n != |rest| - 1 then Err(NotLast(rest[n]))
    else if !HasPrefix(rest[n], SCOPE_PREFIX) then Err(NotAScope(rest[n]))
    else
      match ScopeOf(rest[n][|SCOPE_PREFIX|..])
      case Err(e) => Err(e)
      case Ok(actions) => Ok(TokenLine(hash, LabelOf(rest[..n]), Some(actions)))
  }

  method ParseTokenLine(text: string) returns (r: Result<TokenLine, LineError>)
    requires Fields(text) != []
    ensures r == Meaning(Fields(text))
  {
    var fields := Fields(text);
    var line := TokenLine(Lower(fields[0]), FALLBACK, None);
    var rest := fields[1..];
    var i := 0;
    while i < |rest|
      invariant i <= |rest| && rest == fields[1..] && line == TokenLine(Lower(fields[0]), FALLBACK, None)
      invariant forall k :: 0 <= k < i ==> !LooksLikeScope(rest[k])
    {
      var field := rest[i];
      if !HasPrefix(Lower(field), SCOPE) {
        i := i + 1;
        continue;
      }
      assert FirstScope(rest) == i;
      if i != |rest| - 1 {
        return Err(NotLast(field));
      }
      if !HasPrefix(field, SCOPE_PREFIX) {
        return Err(NotAScope(field));
      }
      var allowed := ParseScope(field[|SCOPE_PREFIX|..]);
      if allowed.Err? {
        return Err(allowed.error);
      }
      line := line.(allowed := Some(allowed.value));
      rest := rest[..i];
      break;
    }
    var actor := Join(rest, ' ');
    if actor != "" {
      line := line.(actor := actor);
    }
    r := Ok(line);
  }

  /** Begins with the word scope, each letter in either case. */
  predicate SpellsScope(field: string) {
    |field| >= 5 && forall k :: 0 <= k < 5 ==> field[k] == "scope"[k] || field[k] == "SCOPE"[k]
  }

  lemma LooksAsItSpells(field: string)
    ensures LooksLikeScope(field) <==> SpellsScope(field)
  {
    if |field| >= 5 {
      var (low, up) := ("scope", "SCOPE");
      assert Lower(field)[..5] == SCOPE <==> forall k :: 0 <= k < 5 ==> Lower(field)[k] == low[k];
      assert forall k :: 0 <= k < 5 ==> 'a' <= low[k] <= 'z' && up[k] as int - 'A' as int == low[k] as int - 'a' as int;
    }
  }

  /** No capital is left, and every other character stands as it was. */
  predicate LowerCased(s: string, r: string) {
    |r| == |s| && forall k :: 0 <= k < |s| ==>
      if 'A' <= s[k] <= 'Z' then 'a' <= r[k] <= 'z' && s[k] as int - 'A' as int == r[k] as int - 'a' as int
      else r[k] == s[k]
  }

  /**
   * The security of the grammar: a line is read as unscoped, and may then do
   * everything, exactly when no field after its hash begins with the word scope
   * in any case; no word of a label ever does; and a hash is compared in lower
   * case.
   */
  lemma UnscopedIffNoScopeField(fields: seq<string>)
    requires fields != []
    ensures (Meaning(fields).Ok? && forall a :: Allows(Meaning(fields).value.allowed, a))
            <==> forall k :: 1 <= k < |fields| ==> !SpellsScope(fields[k])
    ensures Meaning(fields).Ok? ==>
              && LowerCased(fields[0], Meaning(fields).value.hash)
              && exists words :: words <= fields[1..] && (forall w :: w in words ==> !SpellsScope(w))
                   && Meaning(fields).value.actor == if Join(words, ' ') == "" then "cli" else Join(words, ' ')
  {
    var rest := fields[1..];
    var n := FirstScope(rest);
    forall k | 1 <= k < |fields| ensures LooksLikeScope(fields[k]) <==> SpellsScope(fields[k]) {
      LooksAsItSpells(fields[k]);
    }
    assert forall k :: 1 <= k < |fields| ==> fields[k] == rest[k - 1];
    assert rest[..n] <= rest && (n == |rest| ==> rest[..n] == rest);
    if n < |rest| {
      assert SpellsScope(fields[n + 1]);
      if Meaning(fields).Ok? { OnlyKnownIsAllowed(fields); }
    }
    if Meaning(fields).Ok? {
      assert forall w :: w in rest[..n] ==> !SpellsScope(w);
      assert Meaning(fields).value.actor == LabelOf(rest[..n]);
    }
  }

  /** A scope never allows an action the daemon does not offer. */
  lemma OnlyKnownIsAllowed(fields: seq<string>)
    requires fields != [] && Meaning(fields).Ok? && Meaning(fields).value.allowed.Some?
    ensures !Allows(Meaning(fields).value.allowed, "")
  {
    ScopeIsWhatIsNamed(fields, "");
  }

  /** A scoped line allows exactly the actions its last field names, and is refused if it names anything else. */
  lemma ScopeIsWhatIsNamed(fields: seq<string>, a: string)
    requires fields != [] && Meaning(fields).Ok? && Meaning(fields).value.allowed.Some?
    ensures var scope := fields[|fields| - 1];
            && |scope| >= 6 && scope[..6] == "scope="
            && (Allows(Meaning(fields).value.allowed, a) <==> scope[6..] != "" && a in Split(scope[6..], ','))
            && (Allows(Meaning(fields).value.allowed, a) ==> a in {"deploy", "rollback", "converge"})
  {
    var scope := fields[|fields| - 1];
    assert scope == fields[1..][|fields| - 2];
    var names := Split(scope[|SCOPE_PREFIX|..], ',');
    if a in names && FirstUnknown(names) == |names| {
      var k :| 0 <= k < |names| && names[k] == a;
      assert Known(names[k]);
    }
  }

  // ---- Printing -----------------------------------------------------------------

  function ScopeField(names: seq<string>): string {
    SCOPE_PREFIX + Join(names, ',')
  }

  function ScopeFields(scope: Option<seq<string>>): seq<string> {
    match scope
    case None => []
    case Some(names) => [ScopeField(names)]
  }

  function ScopeMeant(scope: Option<seq<string>>): Scope {
    match scope
    case None => None
    case Some(names) => Some(ToSet(names))
  }

  /** A line as an operator writes it. */
  function Print(hash: string, words: seq<string>, scope: Option<seq<string>>): string {
    Join([hash] + words + ScopeFields(scope), ' ')
  }

  predicate AllKnown(names: seq<string>) {
    forall n :: n in names ==> n == "deploy" || n == "rollback" || n == "converge"
  }

  lemma KnownIsPlain(name: string)
    requires Known(name)
    ensures name != "" && ',' !in name && forall c :: c in name ==> !IsSpace(c)
  {
  }

  lemma NamesParse(names: seq<string>)
    requires forall n :: n in names ==> Known(n) && n != "" && ',' !in n
    ensures ScopeOf(Join(names, ',')) == Ok(ToSet(names))
  {
    if names != [] {
      assert names[0] in names;
      JoinHolds(names, ',');
      SplitOfJoin(names, ',');
      assert forall k :: 0 <= k < |names| ==> names[k] in names;
    } else {
      assert ToSet(names) == {};
    }
  }

  lemma ScopeFieldReads(names: seq<string>)
    requires AllKnown(names)
    ensures var field := ScopeField(names);
            && IsWord(field) && LooksLikeScope(field) && HasPrefix(field, SCOPE_PREFIX)
            && ScopeOf(field[|SCOPE_PREFIX|..]) == Ok(ToSet(names))
  {
    forall n | n in names ensures n != "" && ',' !in n && forall c :: c in n ==> !IsSpace(c) {
      KnownIsPlain(n);
    }
    NamesParse(names);
    JoinHolds(names, ',');
    PrefixReads(Join(names, ','));
  }

  lemma PrefixReads(text: string)
    requires forall c :: c in text ==> !IsSpace(c)
    ensures var field := SCOPE_PREFIX + text;
            IsWord(field) && LooksLikeScope(field) && HasPrefix(field, SCOPE_PREFIX) && field[|SCOPE_PREFIX|..] == text
  {
    var field := SCOPE_PREFIX + text;
    assert Lower(field)[..|SCOPE|] == SCOPE;
  }

  lemma {:induction false} JoinHolds(parts: seq<string>, sep: char)
    ensures forall c :: c in Join(parts, sep) ==> c == sep || exists p :: p in parts && c in p
    ensures (exists p :: p in parts && p != "") ==> Join(parts, sep) != ""
  {
    if |parts| > 1 {
      JoinHolds(parts[1..], sep);
      forall c | c in Join(parts, sep) ensures c == sep || exists p :: p in parts && c in p {
        if c in parts[0] {
          assert parts[0] in parts;
        } else if c != sep {
          assert c in Join(parts[1..], sep);
        }
      }
    } else if |parts| == 1 {
      assert parts[0] in parts;
    }
  }

  lemma MeaningOf(hash: string, words: seq<string>, tail: seq<string>)
    requires forall w :: w in words ==> w != "" && !LooksLikeScope(w)
    requires tail == [] || (|tail| == 1 && LooksLikeScope(tail[0]) && HasPrefix(tail[0], SCOPE_PREFIX))
    ensures var line := TokenLine(Lower(hash), if words == [] then FALLBACK else Join(words, ' '), None);
            Meaning([hash] + words + tail) ==
              if tail == [] then Ok(line)
              else match ScopeOf(tail[0][|SCOPE_PREFIX|..])
                   case Err(e) => Err(e)
                   case Ok(actions) => Ok(line.(allowed := Some(actions)))
  {
    assert ([hash] + words + tail)[1..] == words + tail;
    FirstScopeAfter(words, tail);
    assert (words + tail)[..|words|] == words;
    JoinHolds(words, ' ');
    assert words != [] ==> words[0] in words;
    assert if tail == [] then words + tail == words else (words + tail)[|words|] == tail[0];
  }

  /**
   * Printing a hash, label words and an optional scope, then parsing, gives them
   * back; so an empty scope is not none.
   */
  lemma LineRoundTrip(hash: string, words: seq<string>, scope: Option<seq<string>>)
    requires scope.Some? ==> AllKnown(scope.value)
    requires IsWord(hash) && forall w :: w in words ==> IsWord(w) && !LooksLikeScope(w)
    ensures Fields(Print(hash, words, scope)) == [hash] + words + ScopeFields(scope)
    ensures Meaning(Fields(Print(hash, words, scope)))
            == Ok(TokenLine(Lower(hash), if words == [] then "cli" else Join(words, ' '), ScopeMeant(scope)))
  {
    if scope.Some? { ScopeFieldReads(scope.value); }
    FieldsOfJoin([hash] + words + ScopeFields(scope));
    MeaningOf(hash, words, ScopeFields(scope));
  }

  lemma FirstScopeAfter(words: seq<string>, tail: seq<string>)
    requires (forall w :: w in words ==> !LooksLikeScope(w)) && (tail != [] ==> LooksLikeScope(tail[0]))
    ensures FirstScope(words + tail) == |words|
  {
    var all := words + tail;
    assert forall k :: 0 <= k < |words| ==> all[k] == words[k] && words[k] in words;
    assert tail != [] ==> all[|words|] == tail[0];
  }

  // ---- Files --------------------------------------------------------------------

  /** What a raw line holds: nothing when it is blank or a comment, or a token, or an error. */
  type Reader = string -> Result<Option<TokenLine>, LineError>

  function LineOf(raw: string): Result<Option<TokenLine>, LineError> {
    var text := TrimSpace(DropCR(raw));
    if text == "" || text[0] == '#' then Ok(None)
    else
      match Meaning(Fields(text))
      case Ok(line) => Ok(Some(line))
      case Err(e) => Err(e)
  }

  /** Whether a raw line lets the file through: short enough, and blank, a comment or a token. */
  predicate Good(raw: string, read: Reader) {
    |raw| < MAX_LINE && read(raw).Ok?
  }

  function TokenOf(raw: string, read: Reader): seq<TokenLine>
    requires Good(raw, read)
  {
    match read(raw).value case None => [] case Some(line) => [line]
  }

  /** Reading the first n lines in order: their tokens, or the position of the line that stopped it. */
  function ReadFirst(raws: seq<string>, n: nat, read: Reader): Result<seq<TokenLine>, nat>
    requires n <= |raws|
  {
    if n == 0 then Ok([])
    else
      var before := ReadFirst(raws, n - 1, read);
      if before.Err? then before
      else if Good(raws[n - 1], read) then Ok(before.value + TokenOf(raws[n - 1], read))
      else Err(n - 1)
  }

  function ReadAll(raws: seq<string>, read: Reader): Result<seq<TokenLine>, nat> {
    ReadFirst(raws, |raws|, read)
  }

  lemma {:induction false} RefusalStands(raws: seq<string>, n: nat, m: nat, read: Reader)
    requires n <= m <= |raws| && ReadFirst(raws, n, read).Err?
    ensures ReadFirst(raws, m, read) == ReadFirst(raws, n, read)
    decreases m
  {
    if n < m { RefusalStands(raws, n, m - 1, read); }
  }

  /**
   * All or nothing: the lines are accepted exactly when every one is good, and
   * a refusal names the first that is not.
   */
  lemma {:induction false} OneBadLineRefusesAll(raws: seq<string>, n: nat, read: Reader)
    requires n <= |raws|
    ensures ReadFirst(raws, n, read).Ok? <==> forall k :: 0 <= k < n ==> Good(raws[k], read)
    ensures ReadFirst(raws, n, read).Err? ==>
              var bad := ReadFirst(raws, n, read).error;
              bad < n && !Good(raws[bad], read) && forall k :: 0 <= k < bad ==> Good(raws[k], read)
  {
    if n > 0 { OneBadLineRefusesAll(raws, n - 1, read); }
  }

  /** One line that is not too long: trimmed, skipped if blank or a comment, else parsed. */
  method ParseRaw(raw: string) returns (r: Result<Option<TokenLine>, LineError>)
    ensures r == LineOf(raw)
  {
    var text := TrimSpace(DropCR(raw));
    if text == "" || text[0] == '#' {
      return Ok(None);
    }
    var line := ParseTokenLine(text);
    r := match line case Ok(l) => Ok(Some(l)) case Err(e) => Err(e);
  }

  lemma ReadsNext(raws: seq<string>, n: nat, lines: seq<TokenLine>, read: Reader)
    requires n < |raws| && ReadFirst(raws, n, read) == Ok(lines)
    ensures if |raws[n]| >= MAX_LINE || read(raws[n]).Err? then ReadAll(raws, read) == Err(n)
            else if read(raws[n]).value.None? then ReadFirst(raws, n + 1, read) == Ok(lines)
            else ReadFirst(raws, n + 1, read) == Ok(lines + [read(raws[n]).value.value])
  {
    if Good(raws[n], read) {
      assert read(raws[n]).value.None? ==> lines + TokenOf(raws[n], read) == lines;
    } else {
      RefusalStands(raws, n + 1, |raws|, read);
    }
  }

  lemma NextLine(all: seq<string>, k: nat, rest: string)
    requires rest != "" && k <= |all| && Lines(rest) == all[k..]
    ensures var n := Run(rest, Is('\n'));
            && k < |all| && all[k] == rest[..n]
            && Lines(if n == |rest| then "" else rest[n + 1..]) == all[k + 1..]
  {
    assert Lines(rest)[0] == all[k] && Lines(rest)[1..] == all[k + 1..];
  }

  /** The scanner's loop; read is what one line means. */
  method ScanLines(data: string, ghost read: Reader) returns (r: Result<seq<TokenLine>, FileError>)
    requires forall raw {:trigger LineOf(raw)} :: read(raw) == LineOf(raw)
    ensures match ReadAll(Lines(data), read)
            case Ok(lines) => r == Ok(lines)
            case Err(n) => r.Err? && r.error.number == n + 1
  {
    var lines: seq<TokenLine> := [];
    var rest := data;
    var number := 1;
    ghost var all := Lines(data);
    while rest != ""
      invariant 1 <= number <= |all| + 1 && Lines(rest) == all[number - 1..]
      invariant ReadFirst(all, number - 1, read) == Ok(lines)
      decreases |rest|
    {
      var n := Run(rest, Is('\n'));
      var raw := rest[..n];
      NextLine(all, number - 1, rest);
      ReadsNext(all, number - 1, lines, read);
      rest := if n == |rest| then "" else rest[n + 1..];
      if n >= MAX_LINE {
        return Err(TooLong(number));
      }
      var line := ParseRaw(raw);
      if line.Err? {
        return Err(BadLine(number, line.error));
      }
      if line.value.Some? {
        lines := lines + [line.value.value];
      }
      number := number + 1;
    }
    r := Ok(lines);
  }

  /** The file, all or nothing: every token in order, or the number of the first line that is not good. */
  method ParseTokenHashFile(data: string) returns (r: Result<seq<TokenLine>, FileError>)
    ensures match ReadAll(Lines(data), LineOf)
            case Ok(lines) => r == Ok(lines)
            case Err(n) => r.Err? && r.error.number == n + 1
    ensures r.Ok? <==> forall k :: 0 <= k < |Lines(data)| ==> |Lines(data)[k]| < 65536 && LineOf(Lines(data)[k]).Ok?
  {
    OneBadLineRefusesAll(Lines(data), |Lines(data)|, LineOf);
    r := ScanLines(data, LineOf);
  }

  /** One entry of a file to be written. */
  datatype Entry = Entry(hash: string, words: seq<string>, scope: Option<seq<string>>)
  {
    predicate Writable() {
      && IsWord(hash) && hash[0] != '#'
      && (forall w :: w in words ==> IsWord(w) && !LooksLikeScope(w))
      && (scope.Some? ==> AllKnown(scope.value))
      && |Text()| < MAX_LINE
    }

    function Text(): string { Print(hash, words, scope) }

    function Token(): TokenLine {
      TokenLine(Lower(hash), if words == [] then "cli" else Join(words, ' '), ScopeMeant(scope))
    }
  }

  /** A file as an operator writes it: each entry on a line of its own. */
  function Written(texts: seq<string>): string {
    if texts == [] then "" else texts[0] + "\n" + Written(texts[1..])
  }

  lemma LinesFirst(text: string, rest: string)
    requires '\n' !in text
    ensures Lines(text + ("\n" + rest)) == [text] + Lines(rest)
    ensures text != "" ==> Lines(text) == [text]
  {
    var all := text + ("\n" + rest);
    RunOf(text, "\n" + rest, Is('\n'));
    assert all[..|text|] == text && all[|text| + 1..] == rest;
    RunOf(text, "", Is('\n'));
    assert text + "" == text && text[..|text|] == text;
  }

  /** Each text on a line of its own is a line, and so is what follows the last line end. */
  lemma {:induction false} LinesOfWritten(texts: seq<string>, last: string)
    requires '\n' !in last && forall t :: t in texts ==> '\n' !in t
    ensures Lines(Written(texts) + last) == texts + if last == "" then [] else [last]
  {
    if texts == [] {
      assert Written(texts) + last == last;
      LinesFirst(last, "");
    } else {
      assert texts[0] in texts;
      assert Written(texts) + last == texts[0] + ("\n" + (Written(texts[1..]) + last));
      LinesFirst(texts[0], Written(texts[1..]) + last);
      LinesOfWritten(texts[1..], last);
    }
  }

  lemma {:induction false} JoinEnds(words: seq<string>)
    requires words != [] && words[0] != "" && forall w :: w in words ==> IsWord(w)
    ensures var text := Join(words, ' ');
            text != "" && text[0] == words[0][0] && !IsSpace(text[0]) && !IsSpace(text[|text| - 1])
  {
    assert words[0] in words;
    assert words[0][0] in words[0] && words[0][|words[0]| - 1] in words[0];
    if |words| > 1 {
      assert words[1] in words;
      JoinEnds(words[1..]);
      assert Join(words, ' ') == words[0] + " " + Join(words[1..], ' ');
    }
  }

  /** A printed line stands on one line, trimming leaves it alone, and it reads back as its token. */
  lemma PrintedLine(e: Entry)
    requires e.Writable()
    ensures e.Text() != "" && '\n' !in e.Text() && Good(e.Text(), LineOf) && LineOf(e.Text()) == Ok(Some(e.Token()))
  {
    var fields := [e.hash] + e.words + ScopeFields(e.scope);
    if e.scope.Some? { ScopeFieldReads(e.scope.value); }
    JoinEnds(fields);
    JoinHolds(fields, ' ');
    var text := e.Text();
    assert DropCR(text) == text && TrimSpace(text) == text;
    LineRoundTrip(e.hash, e.words, e.scope);
  }

  function Texts(entries: seq<Entry>): seq<string> {
    seq(|entries|, (k: nat) requires k < |entries| => entries[k].Text())
  }

  function TokensIn(entries: seq<Entry>): seq<TokenLine> {
    seq(|entries|, (k: nat) requires k < |entries| => entries[k].Token())
  }

  lemma {:induction false} ReadsPrinted(raws: seq<string>, lines: seq<TokenLine>, n: nat, read: Reader)
    requires n <= |raws| == |lines|
    requires forall k :: 0 <= k < |raws| ==> Good(raws[k], read) && read(raws[k]).value == Some(lines[k])
    ensures ReadFirst(raws, n, read) == Ok(lines[..n])
  {
    if n > 0 {
      ReadsPrinted(raws, lines, n - 1, read);
      assert lines[..n] == lines[..n - 1] + [lines[n - 1]];
    }
  }

  /** A file's text, its last line ended or not. */
  function FileOf(texts: seq<string>, ended: bool): string {
    if ended || texts == [] then Written(texts) else Written(texts[..|texts| - 1]) + texts[|texts| - 1]
  }

  lemma LinesOfFile(texts: seq<string>, ended: bool)
    requires forall t :: t in texts ==> t != "" && '\n' !in t
    ensures Lines(FileOf(texts, ended)) == texts
  {
    if ended || texts == [] {
      LinesOfWritten(texts, "");
      assert Written(texts) + "" == Written(texts);
    } else {
      var n := |texts| - 1;
      assert texts[n] in texts;
      LinesOfWritten(texts[..n], texts[n]);
    }
  }

  /** A written file is accepted and parses back to exactly its entries, in order, its last line ended or not. */
  lemma FileRoundTrip(entries: seq<Entry>, ended: bool)
    requires forall e :: e in entries ==> e.Writable()
    ensures ReadAll(Lines(FileOf(Texts(entries), ended)), LineOf) == Ok(TokensIn(entries))
  {
    forall k | 0 <= k < |entries|
      ensures entries[k].Text() != "" && '\n' !in entries[k].Text() && Good(entries[k].Text(), LineOf)
      ensures LineOf(entries[k].Text()).value == Some(entries[k].Token())
    {
      PrintedLine(entries[k]);
    }
    LinesOfFile(Texts(entries), ended);
    ReadsPrinted(Texts(entries), TokensIn(entries), |entries|, LineOf);
    assert TokensIn(entries)[..|entries|] == TokensIn(entries);
  }
}
