/** What a player gets who defines, uses and removes aliases: the commands end to end. */
module AliasEffects {
  import opened Strings
  import opened Aliases

  /** A name of small letters that is no reserved word. */
  predicate PlainName(name: string) {
    && name != "" && (forall c :: c in name ==> 'a' <= c <= 'z')
    && name != "alias" && !IsPrefix("una", name) && !IsPrefix("quit", name)
  }

  /** Something to put in its place: it begins with a letter or sign, has no tilde, and is not forbidden. */
  predicate PlainText(sub: string) {
    sub != "" && !Space(sub[0]) && '~' !in sub && !IsPrefix(sub, "delete") && !IsPrefix(sub, "prefix")
  }

  /** White space is the blank and the five control characters from the tab to the carriage return. */
  lemma SpaceIs(c: char)
    ensures Space(c) <==> c == ' ' || 9 <= c as int <= 13
  {
  }

  lemma PlainIsOk(name: string)
    requires PlainName(name)
    ensures NameOk(name) && !Space(name[0]) && '~' !in name
  {
    assert name[0] in name;
    forall i | 0 <= i < |name|
      ensures Fold(name)[i] == name[i]
    {
      assert name[i] in name;
    }
    assert Fold("alias") == "alias";
  }

  lemma SmashNothing(line: string)
    requires '~' !in line
    ensures Smash(line) == line
  {
    forall i | 0 <= i < |line|
      ensures Smash(line)[i] == line[i]
    {
      assert line[i] in line;
    }
  }

  lemma SkipNothing(s: string)
    requires s != "" ==> !Space(s[0])
    ensures SkipSpace(s) == s
  {
  }

  /** What the line `name sub` says to the command. */
  lemma PlainLine(name: string, sub: string)
    requires PlainName(name) && PlainText(sub)
    ensures var line := name + " " + sub; Smash(line) == line && FirstWord(line) == name && Rest(line) == sub
  {
    PlainIsOk(name);
    SmashNothing(name + " " + sub);
    NameFirst(name, sub);
    SkipNothing(sub);
  }

  /** Which lines change the table: exactly these. */
  lemma AliasTakes(es: seq<Entry>, npc: bool, line: string)
    ensures var word, rest := FirstWord(Smash(line)), Rest(Smash(line));
      AliasReply(es, npc, line) in {Redefined, Added}
      <==> && !npc && word != "" && word != "alias" && !IsPrefix("una", word) && !IsPrefix("quit", word)
           && ' ' !in word && '"' !in word && '\'' !in word
           && rest != "" && !IsPrefix(rest, "delete") && !IsPrefix(rest, "prefix")
           && (Has(es, word) || |es| < 80)
  {
    var word := FirstWord(Smash(line));
    assert Fold("alias") == "alias";
    if Has(es, word) {
      var i :| 0 <= i < |es| && es[i].name == word;
    }
  }

  /** A name alone shows what it stands for, and changes nothing; a name that stands for nothing is said to be undefined. */
  lemma AliasShows(commands: seq<Command>, name: string)
    requires PlainName(name)
    ensures AliasReply(Run(commands), false, name) ==
      if name in AsMap(Run(commands)) then Shown(AsMap(Run(commands))[name]) else NotDefined
    ensures Run(commands + [Alias(false, name)]) == Run(commands)
  {
    var es := Run(commands);
    RunMore(commands, Alias(false, name));
    RunKeeps(commands);
    AsMapHas(es, name);
    PlainIsOk(name);
    SmashNothing(name);
    NameFirst(name, "");
  }

  /** `alias name sub` in a table with room: the map has that one definition more, whatever it had for the name. */
  lemma Defines(commands: seq<Command>, name: string, sub: string)
    requires PlainName(name) && PlainText(sub) && (name in AsMap(Run(commands)) || |Run(commands)| < 80)
    ensures AsMap(Run(commands + [Alias(false, name + " " + sub)])) == AsMap(Run(commands))[name := sub]
  {
    var es, line := Run(commands), name + " " + sub;
    RunMore(commands, Alias(false, line));
    RunKeeps(commands);
    PlainLine(name, sub);
    PlainIsOk(name);
    AsMapHas(es, name);
    AliasTakes(es, false, line);
    AliasKeeps(es, false, line);
  }

  lemma RunMore(commands: seq<Command>, c: Command)
    ensures Run(commands + [c]) == After(Run(commands), c)
  {
    assert (commands + [c])[..|commands|] == commands;
  }

  /** `unalias` takes exactly the named definition out, and says so if there is one; an NPC's changes nothing. */
  lemma Undefines(commands: seq<Command>, npc: bool, line: string)
    ensures UnaliasReply(Run(commands), npc, line) == Unaliased <==> !npc && FirstWord(line) in AsMap(Run(commands))
    ensures AsMap(Run(commands + [Unalias(npc, line)])) ==
      if npc then AsMap(Run(commands)) else AsMap(Run(commands)) - {FirstWord(line)}
  {
    var es := Run(commands);
    RunMore(commands, Unalias(npc, line));
    RunKeeps(commands);
    AsMapHas(es, "");
    AsMapHas(es, FirstWord(line));
    RemovedMap(es, FirstWord(line));
    assert "" !in AsMap(es);
    if FirstWord(line) == "" {
      assert AsMap(es) - {""} == AsMap(es);
    }
  }

  /** Defining an alias and using it: the definition and the arguments. */
  lemma DefineAndUse(commands: seq<Command>, name: string, sub: string, args: string)
    requires PlainName(name) && PlainText(sub) && (name in AsMap(Run(commands)) || |Run(commands)| < 80)
    requires args != "" && !Space(args[0]) && |sub| + 1 + |args| < 512
    ensures Substituted(AsMap(Run(commands + [Alias(false, name + " " + sub)])), false, name + " " + args) == sub + " " + args
  {
    var all := commands + [Alias(false, name + " " + sub)];
    Defines(commands, name, sub);
    PlainIsOk(name);
    AliasCarries(all, name, "", args);
    assert "" + args == args;
  }

  /** Once it is removed, the line is left as it is again. */
  lemma RemoveAndUse(commands: seq<Command>, name: string, args: string)
    requires PlainName(name)
    ensures Substituted(AsMap(Run(commands + [Unalias(false, name)])), false, name + " " + args) == name + " " + args
  {
    Undefines(commands, false, name);
    PlainIsOk(name);
    NameFirst(name, args);
  }

  /** An NPC's line is never rewritten. */
  lemma NpcLine(m: map<string, string>, line: string)
    ensures Substituted(m, true, line) == line
  {
  }

  // ----- Quotes

  lemma {:induction false} CutQuote(w: string, q: char, rest: string)
    requires q !in w
    ensures Cut(w + [q] + rest, q) == (w, rest)
  {
    var s := w + [q] + rest;
    if w == "" {
      assert s[0] == q && s[1..] == rest;
    } else {
      assert s[0] == w[0] && s[1..] == w[1..] + [q] + rest;
      CutQuote(w[1..], q, rest);
      assert w == [w[0]] + w[1..];
    }
  }

  /** Quotes of either kind hold spaces together in the first word. */
  lemma QuotedFirst(q: char, w: string, rest: string)
    requires (q == '\'' || q == '"') && q !in w
    ensures OneArgument([q] + w + [q] + rest) == (Fold(w), SkipSpace(rest))
  {
    var s := [q] + w + [q] + rest;
    SkipNothing(s);
    assert s[1..] == w + [q] + rest;
    CutQuote(w, q, rest);
  }

  // ----- No tilde gets into a table

  lemma {:induction false} CutFrom(s: string, end: char)
    ensures forall c :: c in Cut(s, end).0 ==> c in s
    ensures forall c :: c in Cut(s, end).1 ==> c in s
  {
    if s == "" {
    } else {
      CutFrom(s[1..], end);
      assert s == [s[0]] + s[1..];
    }
  }

  lemma NoTildeFolded(s: string)
    requires '~' !in s
    ensures '~' !in Fold(s)
  {
    forall i | 0 <= i < |s|
      ensures Fold(s)[i] != '~'
    {
      assert s[i] in s;
    }
  }

  lemma NoTildeWords(line: string)
    requires '~' !in line
    ensures '~' !in FirstWord(line) && '~' !in Rest(line)
  {
    var t := SkipSpace(line);
    SkipSpaceStart(line);
    assert t != "" ==> forall c :: c in t[1..] ==> c in t;
    if t != "" {
      CutFrom(t[1..], t[0]);
    }
    CutFrom(t, ' ');
    var (word, rest) :=
      if t != "" && t[0] in {'\'', '"'} then Cut(t[1..], t[0]) else Cut(t, ' ');
    NoTildeFolded(word);
    SkipSpaceStart(rest);
  }

  /** The player file uses the tilde to end a string: no name and no definition ever has one. */
  lemma {:induction false} NoTildes(commands: seq<Command>, i: nat)
    requires i < |Run(commands)|
    ensures '~' !in Run(commands)[i].name && '~' !in Run(commands)[i].sub
  {
    if commands == [] {
    } else {
      var init, c := commands[..|commands| - 1], commands[|commands| - 1];
      var es := Run(init);
      match c {
        case Alias(npc, line) =>
          NoTildeWords(Smash(line));
          forall j | 0 <= j < |es| ensures '~' !in es[j].name && '~' !in es[j].sub {
            NoTildes(init, j);
          }
        case Unalias(npc, line) =>
          forall j | 0 <= j < |es| ensures '~' !in es[j].name && '~' !in es[j].sub {
            NoTildes(init, j);
          }
      }
    }
  }
}
