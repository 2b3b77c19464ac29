/** The alias table of a player: two packed arrays that stand for a finite map. */
module Aliases {
  import opened Lists
  import opened Strings

  const MAX_ALIAS := 80
  const MAX_INPUT_LENGTH := 512

  // ----- Reading a line

  predicate Space(c: char) {
    c in {' ', '\t', '\n', '\r', 11 as char, 12 as char}
  }

  function SkipSpace(s: string): string {
    if s != "" && Space(s[0]) then SkipSpace(s[1..]) else s
  }

  /** What stands before the first `end`, and what stands after it. */
  function Cut(s: string, end: char): (string, string) {
    if s == "" then ("", "")
    else if s[0] == end then ("", s[1..])
    else
      var (word, rest) := Cut(s[1..], end);
      ([s[0]] + word, rest)
  }

  /** one_argument: the first word in lower case, where quotes hold spaces together, and the rest. */
  function OneArgument(s: string): (string, string) {
    var t := SkipSpace(s);
    var (word, rest) :=
      if t != "" && t[0] in {'\'', '"'} then Cut(t[1..], t[0]) else Cut(t, ' ');
    (Fold(word), SkipSpace(rest))
  }

  function FirstWord(line: string): (word: string)
    ensures Fold(word) == word
  {
    FoldTwice(OneArgument(line).0);
    OneArgument(line).0
  }

  function Rest(line: string): string {
    OneArgument(line).1
  }

  lemma FoldTwice(s: string)
    ensures Fold(Fold(s)) == Fold(s)
  {
  }

  /** smash_tilde */
  function Smash(s: string): (r: string)
    ensures |r| == |s|
  {
    seq(|s|, i requires 0 <= i < |s| => if s[i] == '~' then '-' else s[i])
  }

  // ----- The table as a list and as a map

  datatype Entry = Entry(name: string, sub: string)

  predicate Reserved(word: string) {
    IsPrefix("una", word) || SameText("alias", word) || IsPrefix("quit", word)
  }

  predicate Awkward(word: string) {
    ' ' in word || '"' in word || '\'' in word
  }

  /** What do_alias lets into the table as a name. */
  predicate NameOk(word: string) {
    word != "" && Fold(word) == word && !Reserved(word) && !Awkward(word)
  }

  predicate Distinct(es: seq<Entry>) {
    forall i, j :: 0 <= i < j < |es| ==> es[i].name != es[j].name
  }

  predicate Names(es: seq<Entry>) {
    forall i :: 0 <= i < |es| ==> NameOk(es[i].name)
  }

  predicate Table(es: seq<Entry>) {
    |es| <= MAX_ALIAS && Distinct(es) && Names(es)
  }

  function AsMap(es: seq<Entry>): map<string, string> {
    if es == [] then map[] else AsMap(es[..|es| - 1])[es[|es| - 1].name := es[|es| - 1].sub]
  }

  predicate Has(es: seq<Entry>, word: string) {
    exists i :: 0 <= i < |es| && es[i].name == word
  }

  function IndexOf(es: seq<Entry>, word: string): (k: nat)
    ensures k <= |es|
    ensures k < |es| ==> es[k].name == word
    ensures forall i :: 0 <= i < k ==> es[i].name != word
  {
    if es == [] then 0 else if es[0].name == word then 0 else 1 + IndexOf(es[1..], word)
  }

  lemma {:induction false} AsMapHas(es: seq<Entry>, word: string)
    requires Distinct(es)
    ensures word in AsMap(es) <==> Has(es, word)
    ensures forall i :: 0 <= i < |es| && es[i].name == word ==> AsMap(es)[word] == es[i].sub
    ensures |AsMap(es)| == |es|
  {
    if es == [] {
    } else {
      var short := es[..|es| - 1];
      AsMapHas(short, word);
      AsMapHas(short, es[|es| - 1].name);
      assert forall i :: 0 <= i < |short| ==> short[i] == es[i];
    }
  }

  /** Redefining keeps the place in the table; a new name goes to the end. */
  function Updated(es: seq<Entry>, word: string, sub: string): seq<Entry> {
    var k := IndexOf(es, word);
    if k < |es| then es[k := Entry(word, sub)] else es + [Entry(word, sub)]
  }

  /** Deletion keeps the order of the others. */
  function Removed(es: seq<Entry>, word: string): seq<Entry> {
    var k := IndexOf(es, word);
    if k < |es| then es[..k] + es[k + 1..] else es
  }

  /** The entries under any other name, in their order. */
  function Others(es: seq<Entry>, word: string): seq<Entry> {
    if es == [] then []
    else Others(es[..|es| - 1], word) + (if es[|es| - 1].name == word then [] else [es[|es| - 1]])
  }

  lemma {:induction false} OthersAll(es: seq<Entry>, word: string)
    requires !Has(es, word)
    ensures Others(es, word) == es
  {
    if es == [] {
    } else {
      assert forall i :: 0 <= i < |es| - 1 ==> es[..|es| - 1][i] == es[i];
      OthersAll(es[..|es| - 1], word);
    }
  }

  lemma {:induction false} OthersCut(es: seq<Entry>, k: nat, word: string)
    requires Distinct(es) && k < |es| && es[k].name == word
    ensures Others(es, word) == es[..k] + es[k + 1..]
  {
    var short, last := es[..|es| - 1], es[|es| - 1];
    if k == |es| - 1 {
      OthersAll(short, word);
    } else {
      OthersCut(short, k, word);
      assert short[..k] == es[..k] && short[k + 1..] + [last] == es[k + 1..];
    }
  }

  /** The map that a list of distinct names stands for. */
  ghost predicate IsMapOf(m: map<string, string>, es: seq<Entry>) {
    && (forall i :: 0 <= i < |es| ==> es[i].name in m && m[es[i].name] == es[i].sub)
    && (forall w :: w in m ==> Has(es, w))
  }

  lemma OnlyMap(m: map<string, string>, es: seq<Entry>)
    requires Distinct(es) && IsMapOf(m, es)
    ensures AsMap(es) == m
  {
    MapOf(es);
    forall w: string ensures w in AsMap(es) <==> w in m {
      AsMapHas(es, w);
    }
    forall w | w in m ensures AsMap(es)[w] == m[w] {
      var i :| 0 <= i < |es| && es[i].name == w;
    }
  }

  lemma MapOf(es: seq<Entry>)
    requires Distinct(es)
    ensures IsMapOf(AsMap(es), es)
  {
    forall w: string ensures w in AsMap(es) <==> Has(es, w) {
      AsMapHas(es, w);
    }
    forall i | 0 <= i < |es| ensures es[i].name in AsMap(es) && AsMap(es)[es[i].name] == es[i].sub {
      AsMapHas(es, es[i].name);
    }
  }

  lemma UpdatedAt(es: seq<Entry>, word: string, sub: string)
    requires Distinct(es)
    ensures var k, after := IndexOf(es, word), Updated(es, word, sub);
      && Distinct(after) && k < |after| && after[k] == Entry(word, sub) && |es| <= |after| <= |es| + 1
      && (forall i :: 0 <= i < |after| && i != k ==> i < |es| && after[i] == es[i] && es[i].name != word)
  {
  }

  lemma UpdatedIsMap(m: map<string, string>, es: seq<Entry>, word: string, sub: string)
    requires Distinct(es) && IsMapOf(m, es)
    ensures IsMapOf(m[word := sub], Updated(es, word, sub))
  {
    var k, after := IndexOf(es, word), Updated(es, word, sub);
    UpdatedAt(es, word, sub);
    forall w | w in m[word := sub] ensures Has(after, w) {
      if w == word {
        assert after[k].name == w;
      } else {
        var i :| 0 <= i < |es| && es[i].name == w;
        assert after[i].name == w;
      }
    }
  }

  /** Redefining or adding a name is one update of the map. */
  lemma UpdatedMap(es: seq<Entry>, word: string, sub: string)
    requires Distinct(es)
    ensures AsMap(Updated(es, word, sub)) == AsMap(es)[word := sub]
  {
    MapOf(es);
    UpdatedAt(es, word, sub);
    UpdatedIsMap(AsMap(es), es, word, sub);
    OnlyMap(AsMap(es)[word := sub], Updated(es, word, sub));
  }

  /** It also keeps the table packed, with distinct and allowed names. */
  lemma UpdatedTable(es: seq<Entry>, word: string, sub: string)
    requires Table(es) && NameOk(word) && (|es| < MAX_ALIAS || IndexOf(es, word) < |es|)
    ensures Table(Updated(es, word, sub))
  {
    UpdatedAt(es, word, sub);
  }

  lemma RemovedAt(es: seq<Entry>, word: string)
    requires Distinct(es) && IndexOf(es, word) < |es|
    ensures var k, after := IndexOf(es, word), Removed(es, word);
      && Distinct(after) && |after| == |es| - 1
      && (forall i :: 0 <= i < k ==> after[i] == es[i] && es[i].name != word)
      && (forall i :: k <= i < |after| ==> after[i] == es[i + 1] && es[i + 1].name != word)
  {
    var k, after := IndexOf(es, word), Removed(es, word);
    CutEntry(es, k);
    assert forall i :: k < i < |es| ==> es[i].name != es[k].name;
  }

  lemma CutEntry(es: seq<Entry>, k: nat)
    requires Distinct(es) && k < |es|
    ensures var after := es[..k] + es[k + 1..];
      && Distinct(after) && |after| == |es| - 1
      && (forall i :: 0 <= i < k ==> after[i] == es[i]) && (forall i :: k <= i < |after| ==> after[i] == es[i + 1])
  {
  }

  lemma RemovedIsMap(m: map<string, string>, es: seq<Entry>, word: string)
    requires Distinct(es) && IsMapOf(m, es) && IndexOf(es, word) < |es|
    ensures IsMapOf(m - {word}, Removed(es, word))
  {
    var k, after := IndexOf(es, word), Removed(es, word);
    RemovedAt(es, word);
    forall i | 0 <= i < |after| ensures after[i].name in m - {word} && m[after[i].name] == after[i].sub {
      var j := if i < k then i else i + 1;
      assert after[i] == es[j] && es[j].name != word;
    }
    forall w | w in m - {word} ensures Has(after, w) {
      StaysIn(es, word, w);
    }
  }

  lemma StaysIn(es: seq<Entry>, word: string, w: string)
    requires Distinct(es) && Has(es, w) && w != word
    ensures Has(Removed(es, word), w)
  {
    var k, after := IndexOf(es, word), Removed(es, word);
    var i :| 0 <= i < |es| && es[i].name == w;
    if k < |es| {
      assert after[if i < k then i else i - 1].name == w;
    }
  }

  /** Deleting a name deletes it from the map. */
  lemma RemovedMap(es: seq<Entry>, word: string)
    requires Distinct(es)
    ensures AsMap(Removed(es, word)) == AsMap(es) - {word}
  {
    if IndexOf(es, word) < |es| {
      MapOf(es);
      RemovedAt(es, word);
      RemovedIsMap(AsMap(es), es, word);
      OnlyMap(AsMap(es) - {word}, Removed(es, word));
    } else {
      AsMapHas(es, word);
    }
  }

  lemma RemovedNames(es: seq<Entry>, word: string)
    requires Distinct(es) && Names(es)
    ensures Names(Removed(es, word))
  {
    if IndexOf(es, word) < |es| {
      CutEntry(es, IndexOf(es, word));
    }
  }

  /** The entries that stay after a deletion stay in their order. */
  lemma RemovedOthers(es: seq<Entry>, word: string)
    requires Distinct(es)
    ensures Removed(es, word) == Others(es, word)
  {
    var k := IndexOf(es, word);
    if k == |es| {
      OthersAll(es, word);
    } else {
      OthersCut(es, k, word);
    }
  }

  /** Deletion keeps the table packed, with distinct and allowed names. */
  lemma RemovedTable(es: seq<Entry>, word: string)
    requires Table(es)
    ensures Table(Removed(es, word))
  {
    RemovedNames(es, word);
    if IndexOf(es, word) < |es| {
      RemovedAt(es, word);
    }
  }

  // ----- What the commands do, in terms of the list

  datatype Reply =
    | Ignored
    | Listed
    | ReservedWord
    | BadCharacter
    | Shown(sub: string)
    | NotDefined
    | Forbidden
    | Redefined
    | Full
    | Added
    | NoName
    | Unaliased

  /** do_alias */
  function AliasReply(es: seq<Entry>, npc: bool, line: string): Reply {
    var smashed := Smash(line);
    var word, rest := FirstWord(smashed), Rest(smashed);
    var k := IndexOf(es, word);
    if npc then Ignored
    else if word == "" then Listed
    else if Reserved(word) then ReservedWord
    else if Awkward(word) then BadCharacter
    else if rest == "" then (if k < |es| then Shown(es[k].sub) else NotDefined)
    else if IsPrefix(rest, "delete") || IsPrefix(rest, "prefix") then Forbidden
    else if k < |es| then Redefined
    else if |es| >= MAX_ALIAS then Full
    else Added
  }

  function AfterAlias(es: seq<Entry>, npc: bool, line: string): seq<Entry> {
    if AliasReply(es, npc, line) in {Redefined, Added} then Updated(es, FirstWord(Smash(line)), Rest(Smash(line)))
    else es
  }

  /** do_unalias */
  function UnaliasReply(es: seq<Entry>, npc: bool, line: string): Reply {
    if npc then Ignored
    else if FirstWord(line) == "" then NoName
    else if Has(es, FirstWord(line)) then Unaliased
    else NotDefined
  }

  function AfterUnalias(es: seq<Entry>, npc: bool, line: string): seq<Entry> {
    if npc || FirstWord(line) == "" then es else Removed(es, FirstWord(line))
  }

  // ----- Substitution

  function Cropped(s: string): string {
    if |s| > MAX_INPUT_LENGTH - 1 then s[..MAX_INPUT_LENGTH - 1] else s
  }

  function Joined(sub: string, rest: string): string {
    Cropped(sub + (if rest == "" then "" else " " + rest))
  }

  /** The lines left alone before the table is looked at: everything "alias" or "unalias" begins with. */
  predicate Bypassed(npc: bool, line: string) {
    npc || IsPrefix(line, "alias") || IsPrefix(line, "unalias")
  }

  /** What is interpreted in place of a line: one lookup of its first word, where the line begins with that word. */
  function Substituted(m: map<string, string>, npc: bool, line: string): string {
    if !Bypassed(npc, line) && FirstWord(line) in m && IsPrefix(FirstWord(line), line) then
      Joined(m[FirstWord(line)], Rest(line))
    else line
  }

  // ----- Runs

  datatype Command = Alias(npc: bool, line: string) | Unalias(npc: bool, line: string)

  function After(es: seq<Entry>, c: Command): seq<Entry> {
    match c
    case Alias(npc, line) => AfterAlias(es, npc, line)
    case Unalias(npc, line) => AfterUnalias(es, npc, line)
  }

  function Run(commands: seq<Command>): seq<Entry> {
    if commands == [] then [] else After(Run(commands[..|commands| - 1]), commands[|commands| - 1])
  }

  lemma AliasKeeps(es: seq<Entry>, npc: bool, line: string)
    requires Table(es)
    ensures Table(AfterAlias(es, npc, line))
    ensures AsMap(AfterAlias(es, npc, line)) == (
      if AliasReply(es, npc, line) in {Redefined, Added} then AsMap(es)[FirstWord(Smash(line)) := Rest(Smash(line))]
      else AsMap(es))
  {
    if AliasReply(es, npc, line) in {Redefined, Added} {
      UpdatedMap(es, FirstWord(Smash(line)), Rest(Smash(line)));
      UpdatedTable(es, FirstWord(Smash(line)), Rest(Smash(line)));
    }
  }

  lemma {:induction false} RunKeeps(commands: seq<Command>)
    ensures Table(Run(commands))
  {
    if commands == [] {
    } else {
      var before, c := Run(commands[..|commands| - 1]), commands[|commands| - 1];
      RunKeeps(commands[..|commands| - 1]);
      match c {
        case Alias(npc, line) => AliasKeeps(before, npc, line);
        case Unalias(npc, line) => RemovedTable(before, FirstWord(line));
      }
    }
  }

  /** In every table the commands can build, a line that begins with a reserved word is left as it is. */
  lemma ReservedNeverRewritten(commands: seq<Command>, npc: bool, line: string)
    requires FirstWord(line) == "alias" || IsPrefix("una", FirstWord(line)) || IsPrefix("quit", FirstWord(line))
    ensures Substituted(AsMap(Run(commands)), npc, line) == line
  {
    RunKeeps(commands);
    AsMapHas(Run(commands), FirstWord(line));
  }

  lemma {:induction false} CutAt(s: string, t: string)
    requires ' ' !in s
    ensures Cut(s, ' ') == (s, "") && Cut(s + " " + t, ' ') == (s, t)
  {
    var u := s + " " + t;
    if s == "" {
      assert u[1..] == t;
    } else {
      CutAt(s[1..], t);
      assert s == [s[0]] + s[1..] && u[1..] == s[1..] + " " + t;
    }
  }

  /** A name of the table is the first word of the line it begins. */
  lemma NameFirst(name: string, args: string)
    requires NameOk(name) && !Space(name[0])
    ensures OneArgument(name) == (name, "") && OneArgument(name + " " + args) == (name, SkipSpace(args))
    ensures IsPrefix(name, name) && IsPrefix(name, name + " " + args)
  {
    assert name[0] in name && (name + " " + args)[0] == name[0];
    CutAt(name, args);
    assert Fold(name + " " + args)[..|name|] == Fold(name);
  }

  lemma NameFires(m: map<string, string>, name: string, args: string)
    requires name in m && NameOk(name) && !Space(name[0])
    ensures Substituted(m, false, name + " " + args) == Joined(m[name], SkipSpace(args))
  {
    var line := name + " " + args;
    assert !Bypassed(false, line) by {
      SpacedNoPrefix(name, args, "alias");
      SpacedNoPrefix(name, args, "unalias");
    }
    assert FirstWord(line) == name && Rest(line) == SkipSpace(args) && IsPrefix(name, line) by {
      NameFirst(name, args);
    }
  }

  lemma SpacedNoPrefix(name: string, args: string, word: string)
    requires forall i :: 0 <= i < |word| ==> Lower(word[i]) != ' '
    ensures !IsPrefix(name + " " + args, word)
  {
    var line := name + " " + args;
    assert Fold(line)[|name|] == ' ';
    if |line| <= |word| {
      assert Fold(word)[..|line|][|name|] == Lower(word[|name|]) != ' ';
    }
  }

  lemma {:induction false} SkipSpaceStart(s: string)
    ensures var t := SkipSpace(s); (t != "" ==> !Space(t[0])) && forall c :: c in t ==> c in s
  {
    if s == "" || !Space(s[0]) {
    } else {
      SkipSpaceStart(s[1..]);
    }
  }

  /** A name that begins with white space other than a blank is no first word of itself. */
  lemma SpacedName(name: string)
    requires NameOk(name) && Space(name[0])
    ensures FirstWord(name) == "" || !IsPrefix(FirstWord(name), name)
  {
    SkipSpaceStart(name);
    var t := SkipSpace(name);
    if t != "" {
      assert t[0] in t;
    }
  }

  predicate Blank(s: string) {
    forall i :: 0 <= i < |s| ==> Space(s[i])
  }

  lemma {:induction false} SkipBlank(s: string, rest: string)
    requires Blank(s)
    ensures SkipSpace(s + rest) == SkipSpace(rest)
  {
    if s == "" {
      assert s + rest == rest;
    } else {
      assert (s + rest)[0] == s[0] && (s + rest)[1..] == s[1..] + rest;
      SkipBlank(s[1..], rest);
    }
  }

  lemma {:induction false} SkipInside(s: string, rest: string)
    requires !Blank(s)
    ensures SkipSpace(s + rest) == SkipSpace(s) + rest && SkipSpace(s) != ""
  {
    assert (s + rest)[0] == s[0] && (s + rest)[1..] == s[1..] + rest;
    if !Space(s[0]) {
    } else {
      var i :| 0 <= i < |s| && !Space(s[i]);
      assert !Space(s[1..][i - 1]);
      SkipInside(s[1..], rest);
    }
  }

  /** A line whose first word begins otherwise than the line itself is left alone. */
  lemma OtherBeginning(m: map<string, string>, line: string)
    requires line != "" && Space(line[0]) && FirstWord(line) != "" && !Space(FirstWord(line)[0])
    ensures Substituted(m, false, line) == line
  {
    var word := FirstWord(line);
    if |word| <= |line| {
      assert Fold(line)[..|word|][0] == line[0] && Fold(word)[0] == Lower(word[0]);
    }
  }

  lemma SpacedNameLine(m: map<string, string>, name: string, args: string)
    requires NameOk(name) && Space(name[0]) && !Blank(name)
    ensures Substituted(m, false, name + " " + args) == name + " " + args
  {
    var line, t := name + " " + args, SkipSpace(name);
    assert line == name + (" " + args) && line[0] == name[0];
    SkipInside(name, " " + args);
    SkipSpaceStart(name);
    assert t + (" " + args) == t + " " + args && SkipSpace(line)[0] == t[0] && t[0] in t;
    CutAt(t, args);
    assert FirstWord(line) == Fold(t);
    OtherBeginning(m, line);
  }

  /**
   A defined alias in front of arguments, exactly. It fires and carries them over unless its name begins with white
   space (a tab, say, which quotes let in); such a line is left alone, but for a name of nothing else, which is
   skipped, so that the first word is that of the arguments.
   */
  lemma AliasFires(commands: seq<Command>, name: string, args: string)
    requires name in AsMap(Run(commands))
    ensures var m, line := AsMap(Run(commands)), name + " " + args;
      Substituted(m, false, line) == (
        if name != "" && !Space(name[0]) then Joined(m[name], SkipSpace(args))
        else if Blank(name) && FirstWord(args) in m && IsPrefix(FirstWord(args), line) then
          Joined(m[FirstWord(args)], Rest(args))
        else line)
  {
    var m, line := AsMap(Run(commands)), name + " " + args;
    RunKeeps(commands);
    AsMapHas(Run(commands), name);
    if !Space(name[0]) {
      NameFires(m, name, args);
    } else if !Blank(name) {
      SpacedNameLine(m, name, args);
    } else {
      BlankNameLine(m, name, args);
    }
  }

  /**
   The same in full, for a name that begins otherwise: the definition, then, if any are given, a blank and the arguments
   from their first letter on, cut to what fits into a line.
   */
  lemma AliasCarries(commands: seq<Command>, name: string, gap: string, args: string)
    requires name in AsMap(Run(commands)) && name != "" && !Space(name[0])
    requires Blank(gap) && (args != "" ==> !Space(args[0]))
    ensures var sub := AsMap(Run(commands))[name];
      var text := if args == "" then sub else sub + " " + args;
      Substituted(AsMap(Run(commands)), false, name + " " + (gap + args)) == if |text| < 512 then text else text[..511]
  {
    RunKeeps(commands);
    AsMapHas(Run(commands), name);
    NameFires(AsMap(Run(commands)), name, gap + args);
    SkipBlank(gap, args);
    JoinedText(AsMap(Run(commands))[name], args);
  }

  lemma JoinedText(sub: string, args: string)
    ensures SkipSpace("") == "" && (args != "" && !Space(args[0]) ==> SkipSpace(args) == args)
    ensures var text := if args == "" then sub else sub + " " + args;
      Joined(sub, args) == if |text| < 512 then text else text[..511]
  {
    assert sub + "" == sub && sub + (" " + args) == sub + " " + args;
  }

  lemma BlankNameLine(m: map<string, string>, name: string, args: string)
    requires Blank(name)
    ensures var line := name + " " + args;
      Substituted(m, false, line) == (
        if FirstWord(args) in m && IsPrefix(FirstWord(args), line) then Joined(m[FirstWord(args)], Rest(args)) else line)
  {
    var line := name + " " + args;
    assert line == (name + " ") + args && Blank(name + " ");
    SkipBlank(name + " ", args);
    assert OneArgument(line) == OneArgument(args);
    SpacedNoPrefix(name, args, "alias");
    SpacedNoPrefix(name, args, "unalias");
  }

  /** Used bare, it fires exactly when its name is no abbreviation of "alias" or "unalias". */
  lemma BareAliasFires(commands: seq<Command>, name: string)
    requires name in AsMap(Run(commands))
    ensures Substituted(AsMap(Run(commands)), false, name) == (
      if name == "" || Space(name[0]) || IsPrefix(name, "alias") || IsPrefix(name, "unalias") then name
      else if |AsMap(Run(commands))[name]| < 512 then AsMap(Run(commands))[name]
      else AsMap(Run(commands))[name][..511])
  {
    var m := AsMap(Run(commands));
    RunKeeps(commands);
    AsMapHas(Run(commands), name);
    AsMapHas(Run(commands), FirstWord(name));
    if Space(name[0]) {
      SpacedName(name);
    } else {
      NameFirst(name, "");
      assert m[name] + "" == m[name];
    }
  }

  /** So the alias "al" can be defined and yet does nothing by itself. */
  lemma MuteAlias()
    ensures var m := AsMap(Run([Alias(false, "al look")]));
      "al" in m && m["al"] == "look" && Substituted(m, false, "al") == "al"
  {
    AliasAl();
    assert [Entry("al", "look")][..0] == [];
    assert Fold("alias")[..2] == Fold("al");
  }

  lemma AlSplits()
    ensures FirstWord(Smash("al look")) == "al" && Rest(Smash("al look")) == "look"
  {
    assert Smash("al look") == "al" + " " + "look";
    NameFirst("al", "look");
  }

  lemma AlAdded()
    ensures AliasReply([], false, "al look") == Added
  {
    AlSplits();
  }

  lemma AliasAl()
    ensures Run([Alias(false, "al look")]) == [Entry("al", "look")]
  {
    var c := Alias(false, "al look");
    AlSplits();
    AlAdded();
    assert [c][..0] == [] && Run([]) == [];
    assert Run([c]) == After([], c);
  }

  // ----- The arrays

  /** The slots in use come first, in both arrays. */
  predicate PackedSlots(names: seq<Option<string>>, subs: seq<Option<string>>, n: nat) {
    && n <= |names| == |subs|
    && (forall i :: 0 <= i < n ==> names[i].Some? && subs[i].Some?)
    && (forall i :: n <= i < |names| ==> names[i].None? && subs[i].None?)
  }

  function EntriesOf(names: seq<Option<string>>, subs: seq<Option<string>>, n: nat): (es: seq<Entry>)
    requires PackedSlots(names, subs, n)
    ensures |es| == n && forall i :: 0 <= i < n ==> es[i] == Entry(names[i].value, subs[i].value)
  {
    seq(n, i requires 0 <= i < n => Entry(names[i].value, subs[i].value))
  }

  /** Where the deletion loop stands: slot k is emptied, and the slots read after it have moved down by one. */
  ghost function Sliding(was: seq<Option<string>>, k: nat, pos: nat): (now: seq<Option<string>>)
    requires k <= |was| && pos <= |was|
    ensures |now| == |was|
  {
    if pos <= k then was else was[..k] + was[k + 1..pos] + [None] + was[pos..]
  }

  lemma SlidingStep(was: seq<Option<string>>, k: nat, pos: nat)
    requires k <= |was| && pos < |was|
    ensures Sliding(was, k, pos)[pos] == was[pos]
    ensures Sliding(was, k, pos + 1) == (
      if pos < k then was
      else if pos == k then was[k := None]
      else Sliding(was, k, pos)[pos - 1 := was[pos]][pos := None])
  {
  }

  /** The slot to be read next is as it was. */
  lemma NextSlot(was: seq<Option<string>>, k: nat, pos: nat)
    requires k <= |was| && pos <= |was|
    ensures pos < |was| ==> Sliding(was, k, pos)[pos] == was[pos]
  {
  }

  /** The slot the loop reads next: in use exactly if the list goes on there, and the name found exactly at k. */
  lemma SlotAhead(names: seq<Option<string>>, subs: seq<Option<string>>, n: nat, word: string, k: nat, pos: nat,
                  now: seq<Option<string>>)
    requires PackedSlots(names, subs, n) && k == IndexOf(EntriesOf(names, subs, n), word) && pos <= n
    requires now == Sliding(names, k, pos)
    ensures pos < |names| ==> now[pos] == names[pos] && (now[pos].Some? <==> pos < n)
    ensures pos < n && pos <= k ==> (names[pos].value == word <==> pos == k)
  {
    NextSlot(names, k, pos);
    if pos < n {
      assert EntriesOf(names, subs, n)[pos] == Entry(names[pos].value, subs[pos].value);
    }
  }

  lemma SlidingEnd(was: seq<Option<string>>, k: nat, n: nat)
    requires k < n <= |was|
    ensures var now := Sliding(was, k, n);
      && (forall i :: 0 <= i < |was| && (i < k || i >= n) ==> now[i] == was[i])
      && (forall i :: k <= i < n - 1 ==> now[i] == was[i + 1])
      && now[n - 1] == None
  {
  }

  /** At the end of the loop the slots hold the list without the entry at k. */
  lemma SlidingRemoves(names: seq<Option<string>>, subs: seq<Option<string>>, k: nat, n: nat)
    requires PackedSlots(names, subs, n) && k < n
    ensures PackedSlots(Sliding(names, k, n), Sliding(subs, k, n), n - 1)
    ensures EntriesOf(Sliding(names, k, n), Sliding(subs, k, n), n - 1) ==
      EntriesOf(names, subs, n)[..k] + EntriesOf(names, subs, n)[k + 1..]
  {
    SlidingEnd(names, k, n);
    SlidingEnd(subs, k, n);
  }

  /** The step that moves one slot down. */
  method Close(slots: array<Option<string>>, pos: nat)
    requires 0 < pos < slots.Length
    modifies slots
    ensures slots[..] == old(slots[..])[pos - 1 := old(slots[pos])][pos := None]
  {
    slots[pos - 1] := slots[pos];
    slots[pos] := None;
  }

  /** pcdata: two arrays of MAX_ALIAS slots, null where unused. */
  class AliasTable {
    const alias: array<Option<string>>
    const sub: array<Option<string>>
    ghost var count: nat

    ghost predicate Packed()
      reads this, alias, sub
    {
      alias != sub && alias.Length == sub.Length == MAX_ALIAS && PackedSlots(alias[..], sub[..], count)
    }

    ghost function Entries(): (es: seq<Entry>)
      requires Packed()
      reads this, alias, sub
      ensures |es| == count && forall i :: 0 <= i < count ==> es[i] == Entry(alias[i].value, sub[i].value)
    {
      EntriesOf(alias[..], sub[..], count)
    }

    ghost predicate Valid()
      reads this, alias, sub
    {
      Packed() && Table(Entries())
    }

    constructor ()
      ensures Valid() && Entries() == [] && fresh(alias) && fresh(sub)
    {
      alias := new Option<string>[MAX_ALIAS](_ => None);
      sub := new Option<string>[MAX_ALIAS](_ => None);
      count := 0;
    }

    /** The loops of do_alias over the names: where the word is, or the first free slot, or MAX_ALIAS. */
    method Search(word: string) returns (pos: nat)
      requires Valid() && Fold(word) == word
      ensures pos == IndexOf(Entries(), word)
    {
      ghost var es := Entries();
      pos := 0;
      while pos < MAX_ALIAS && alias[pos].Some?
        invariant pos <= count
        invariant forall i :: 0 <= i < pos ==> es[i].name != word
      {
        if SameText(word, alias[pos].value) {
          assert NameOk(es[pos].name);
          return;
        }
        pos := pos + 1;
      }
    }

    /** do_alias */
    method DoAlias(npc: bool, line: string) returns (reply: Reply)
      requires Valid()
      modifies this`count, alias, sub
      ensures Valid()
      ensures reply == AliasReply(old(Entries()), npc, line)
      ensures Entries() == AfterAlias(old(Entries()), npc, line)
    {
      if npc { return Ignored; }
      var smashed := Smash(line);
      var word, rest := FirstWord(smashed), Rest(smashed);
      if word == "" { return Listed; }
      if Reserved(word) { return ReservedWord; }
      if Awkward(word) { return BadCharacter; }
      var pos := Search(word);
      if rest == "" {
        if pos < MAX_ALIAS && alias[pos].Some? {
          return Shown(sub[pos].value);
        }
        return NotDefined;
      }
      if IsPrefix(rest, "delete") || IsPrefix(rest, "prefix") { return Forbidden; }
      if pos < MAX_ALIAS && alias[pos].Some? {
        Write(pos, word, rest);
        return Redefined;
      }
      if pos >= MAX_ALIAS { return Full; }
      Write(pos, word, rest);
      reply := Added;
    }

    /** The slot of the word, or the first free one. */
    method Write(pos: nat, word: string, rest: string)
      requires Valid() && NameOk(word) && pos == IndexOf(Entries(), word) && pos < MAX_ALIAS
      modifies this`count, alias, sub
      ensures Valid() && Entries() == Updated(old(Entries()), word, rest)
    {
      UpdatedTable(Entries(), word, rest);
      ghost var was := Entries();
      alias[pos] := Some(word);
      sub[pos] := Some(rest);
      if pos == count {
        count := count + 1;
      }
      assert Entries() == Updated(was, word, rest);
    }

    /** do_unalias: clears the slot and moves the later ones down. */
    method DoUnalias(npc: bool, line: string) returns (reply: Reply)
      requires Valid()
      modifies this`count, alias, sub
      ensures Valid()
      ensures reply == UnaliasReply(old(Entries()), npc, line)
      ensures Entries() == AfterUnalias(old(Entries()), npc, line)
    {
      if npc { return Ignored; }
      var word := FirstWord(line);
      if word == "" { return NoName; }
      RemovedTable(Entries(), word);
      var found := Delete(word);
      reply := if found then Unaliased else NotDefined;
    }

    method Delete(word: string) returns (found: bool)
      requires Packed()
      modifies this`count, alias, sub
      ensures Packed() && Entries() == Removed(old(Entries()), word)
      ensures found <==> Has(old(Entries()), word)
    {
      ghost var names, subs, k := alias[..], sub[..], IndexOf(Entries(), word);
      assert EntriesOf(names, subs, count) == Entries();
      found := SlideDown(word, names, subs, count, k);
      if found {
        SlidingRemoves(names, subs, k, count);
        count := count - 1;
      }
    }

    /** The loop of do_unalias: the slots from the one with the name on move down by one. */
    method SlideDown(word: string, ghost names: seq<Option<string>>, ghost subs: seq<Option<string>>, ghost n: nat,
        ghost k: nat) returns (found: bool)
      requires alias != sub && alias.Length == sub.Length == MAX_ALIAS && alias[..] == names && sub[..] == subs
      requires PackedSlots(names, subs, n) && k == IndexOf(EntriesOf(names, subs, n), word)
      modifies alias, sub
      ensures alias[..] == Sliding(names, k, n) && sub[..] == Sliding(subs, k, n) && (found <==> k < n)
    {
      var pos := 0;
      found := false;
      while pos < MAX_ALIAS && alias[pos].Some?
        invariant pos <= n && (found <==> k < pos)
        invariant alias[..] == Sliding(names, k, pos) && sub[..] == Sliding(subs, k, pos)
      {
        SlotAhead(names, subs, n, word, k, pos, alias[..]);
        found := DeleteOne(word, pos, found, names, subs, k);
        pos := pos + 1;
      }
      SlotAhead(names, subs, n, word, k, pos, alias[..]);
    }

    /** One turn of the loop. */
    method DeleteOne(word: string, pos: nat, found: bool,
        ghost names: seq<Option<string>>, ghost subs: seq<Option<string>>, ghost k: nat) returns (now: bool)
      requires alias != sub && alias.Length == sub.Length == |names| == |subs| && pos < |names| && k <= |names|
      requires alias[..] == Sliding(names, k, pos) && sub[..] == Sliding(subs, k, pos) && (found <==> k < pos)
      requires names[pos].Some? && (pos <= k ==> (names[pos].value == word <==> pos == k))
      modifies alias, sub
      ensures alias[..] == Sliding(names, k, pos + 1) && sub[..] == Sliding(subs, k, pos + 1) && (now <==> k < pos + 1)
    {
      SlidingStep(names, k, pos);
      SlidingStep(subs, k, pos);
      assert alias[pos] == alias[..][pos] && sub[pos] == sub[..][pos];
      now := found;
      if found {
        Close(alias, pos);
        Close(sub, pos);
      } else if word == alias[pos].value {
        alias[pos] := None;
        sub[pos] := None;
        now := true;
      }
    }

    /** substitute_alias, up to the call of the interpreter */
    method Substitute(npc: bool, line: string) returns (buf: string)
      requires Valid()
      ensures buf == Substituted(AsMap(Entries()), npc, line)
    {
      ghost var es := Entries();
      AsMapHas(es, FirstWord(line));
      if npc || alias[0].None? || IsPrefix(line, "alias") || IsPrefix(line, "unalias") { return line; }
      var pos := 0;
      while pos < MAX_ALIAS && alias[pos].Some?
        invariant 0 <= pos <= count
        invariant forall i :: 0 <= i < pos ==> es[i].name != FirstWord(line) || !IsPrefix(es[i].name, line)
      {
        if IsPrefix(alias[pos].value, line) && alias[pos].value == FirstWord(line) {
          return Joined(sub[pos].value, Rest(line));
        }
        pos := pos + 1;
      }
      buf := line;
    }
  }

  /** Any run of the two commands from an empty table leaves the list, and so the map, that the run says. */
  method Perform(table: AliasTable, commands: seq<Command>)
    requires table.Valid() && table.Entries() == []
    modifies table`count, table.alias, table.sub
    ensures table.Valid() && table.Entries() == Run(commands)
  {
    for n := 0 to |commands|
      invariant table.Valid() && table.Entries() == Run(commands[..n])
    {
      assert commands[..n + 1][..n] == commands[..n];
      match commands[n] {
        case Alias(npc, line) => var reply := table.DoAlias(npc, line);
        case Unalias(npc, line) => var reply := table.DoUnalias(npc, line);
      }
    }
    assert commands[..|commands|] == commands;
  }
}
