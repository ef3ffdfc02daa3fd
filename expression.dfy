/**
 * The front end of the filter-expression compiler. A list of categorized
 * command-line arguments passes through three stages: the id/uuid sequence
 * is folded into one algebraic sub-expression, every argument is rewritten
 * into a `dom`/`op`/`exp` triple with implicit `and`s for old-style input,
 * and every `exp` entry is re-lexed into operator and domain tokens. The
 * postfix conversion and the evaluation are stubs.
 */
module Expressions {
  import opened Results
  import opened Text

  /**
   * The category `Arguments` gives an argument. The categories this file
   * tests for are constructors; any other name is kept as `Other`.
   */
  datatype Category = Id | Uuid | Tag | Pattern | Attribute | Attmod | Word | Exp | Op | Dom | Other(name: string)
  {
    /** The category's name, as the argument list spells it. */
    function Name(): string {
      match this
      case Id => "id"
      case Uuid => "uuid"
      case Tag => "tag"
      case Pattern => "pattern"
      case Attribute => "attribute"
      case Attmod => "attmod"
      case Word => "word"
      case Exp => "exp"
      case Op => "op"
      case Dom => "dom"
      case Other(name) => name
    }

    /** A category as `CategoryOf` gives it: `Other` never carries one of the ten names. */
    predicate Canonical() {
      !Other? || name !in CategoryNames
    }

    /** The categories left once expressions are lexed. */
    predicate Lexical() {
      this == Op || this == Dom
    }
  }

  /** The names of the categories this file tests for. */
  const CategoryNames: set<string> := {"id", "uuid", "tag", "pattern", "attribute", "attmod", "word", "exp", "op", "dom"}

  /** The category a name stands for. */
  function CategoryOf(name: string): (r: Category)
    ensures r.Name() == name
    ensures r.Canonical()
  {
    match name
    case "id" => Id
    case "uuid" => Uuid
    case "tag" => Tag
    case "pattern" => Pattern
    case "attribute" => Attribute
    case "attmod" => Attmod
    case "word" => Word
    case "exp" => Exp
    case "op" => Op
    case "dom" => Dom
    case _ => Other(name)
  }

  /** Every canonical category is the one its name stands for. */
  lemma CategoryNameRoundTrip(category: Category)
    requires category.Canonical()
    ensures CategoryOf(category.Name()) == category
  {
    if category.Other? {
      assert category.name !in CategoryNames;
    }
  }

  /** A command-line argument: its text and its category. */
  type Argument = (string, Category)

  type Arguments = seq<Argument>

  /**
   * The collaborators the compiler calls whose code is not part of this
   * model: the fragment extractors of `Arguments`, the operator test of
   * `Arguments` and that of the infix list, and the lexer.
   */
  datatype Collaborators = Collaborators(
    extractId: string -> seq<int>,                             // the ids `extract_id` appends
    extractUuid: string -> seq<string>,                        // the uuids `extract_uuid` appends
    extractTag: string -> (char, string),                      // sign and tag name
    extractAttr: string -> (string, string),                   // name and value
    extractAttmod: string -> (string, string, string, string), // name, modifier, value, sense
    extractPattern: string -> string,                          // the pattern between its delimiters
    isOperator: string -> bool,                                // `Arguments::is_operator`
    infixIsOperator: string -> bool,                           // `is_operator` on the infix list
    tokenize: string -> seq<string>)                           // the lexer, skipping whitespace and coalescing
                                                               // alphabetic runs, digit runs and quoted text

  /** The index of the first element satisfying `p`, or `|s|` when there is none. */
  function FirstIndex<T>(s: seq<T>, p: T -> bool): (k: nat)
    ensures k <= |s|
    ensures forall j :: 0 <= j < k ==> !p(s[j])
    ensures k < |s| ==> p(s[k])
  {
    if s == [] then 0
    else if p(s[0]) then 0
    else 1 + FirstIndex(s[1..], p)
  }

  // ------------------------------------------------------------------
  // expand_sequence

  predicate IsSequenceArg(arg: Argument) {
    arg.1 == Id || arg.1 == Uuid
  }

  predicate HasSequenceArg(args: Arguments) {
    exists j :: 0 <= j < |args| && IsSequenceArg(args[j])
  }

  /** The ids extracted from every `id` argument, in order. */
  function ExtractedIds(args: Arguments, extractId: string -> seq<int>): seq<int>
  {
    if args == [] then []
    else
      var last := args[|args| - 1];
      ExtractedIds(args[..|args| - 1], extractId) + (if last.1 == Id then extractId(last.0) else [])
  }

  /** The uuids extracted from every `uuid` argument, in order. */
  function ExtractedUuids(args: Arguments, extractUuid: string -> seq<string>): seq<string>
  {
    if args == [] then []
    else
      var last := args[|args| - 1];
      ExtractedUuids(args[..|args| - 1], extractUuid) + (if last.1 == Uuid then extractUuid(last.0) else [])
  }

  /** One `id=<i>` term per id, each id on its own: no ranges are formed. */
  function IdTerms(ids: seq<int>): seq<string>
  {
    if ids == [] then [] else IdTerms(ids[..|ids| - 1]) + ["id=" + IntToString(ids[|ids| - 1])]
  }

  /** One `uuid="<u>"` term per uuid. */
  function UuidTerms(uuids: seq<string>): seq<string>
  {
    if uuids == [] then [] else UuidTerms(uuids[..|uuids| - 1]) + ["uuid=\"" + uuids[|uuids| - 1] + "\""]
  }

  lemma IdTermsSnoc(ids: seq<int>, id: int)
    ensures IdTerms(ids + [id]) == IdTerms(ids) + ["id=" + IntToString(id)]
  {
    assert (ids + [id])[..|ids|] == ids;
  }

  lemma UuidTermsSnoc(uuids: seq<string>, uuid: string)
    ensures UuidTerms(uuids + [uuid]) == UuidTerms(uuids) + ["uuid=\"" + uuid + "\""]
  {
    assert (uuids + [uuid])[..|uuids|] == uuids;
  }

  /** Writing one more id: ` or ` unless it is the first, then its term. */
  lemma IdTextStep(ids: seq<int>, i: nat)
    requires i < |ids|
    ensures Joined(IdTerms(ids[..i + 1]), " or ")
         == (if i > 0 then Joined(IdTerms(ids[..i]), " or ") + " or " else "") + ("id=" + IntToString(ids[i]))
  {
    assert ids[..i + 1] == ids[..i] + [ids[i]];
    IdTermsSnoc(ids[..i], ids[i]);
    JoinedSnoc(IdTerms(ids[..i]), "id=" + IntToString(ids[i]), " or ");
  }

  /** Writing one more uuid: ` or ` unless it is the first, then its term. */
  lemma UuidTextStep(uuids: seq<string>, i: nat)
    requires i < |uuids|
    ensures Joined(UuidTerms(uuids[..i + 1]), " or ")
         == (if i > 0 then Joined(UuidTerms(uuids[..i]), " or ") + " or " else "") + ("uuid=\"" + uuids[i] + "\"")
  {
    assert uuids[..i + 1] == uuids[..i] + [uuids[i]];
    UuidTermsSnoc(uuids[..i], uuids[i]);
    JoinedSnoc(UuidTerms(uuids[..i]), "uuid=\"" + uuids[i] + "\"", " or ");
  }

  /**
   * The algebraic form of the sequence: the id terms joined by ` or `, then
   * ` or ` and the uuid terms when there are uuids, all in parentheses.
   */
  function SequenceText(ids: seq<int>, uuids: seq<string>): string
  {
    "(" + Joined(IdTerms(ids), " or ")
        + (if uuids == [] then "" else " or " + Joined(UuidTerms(uuids), " or "))
        + ")"
  }

  /** The arguments that are neither `id` nor `uuid`, in order. */
  function Unsequenced(args: Arguments): Arguments
  {
    if args == [] then []
    else
      var last := args[|args| - 1];
      Unsequenced(args[..|args| - 1]) + (if IsSequenceArg(last) then [] else [last])
  }

  /** Whether an `id` or `uuid` argument has been seen, as a scan from the front tracks it. */
  predicate Seen(args: Arguments)
  {
    args != [] && (Seen(args[..|args| - 1]) || IsSequenceArg(args[|args| - 1]))
  }

  lemma {:induction false} SeenIff(args: Arguments)
    ensures Seen(args) <==> HasSequenceArg(args)
  {
    if args != [] {
      var init := args[..|args| - 1];
      SeenIff(init);
      assert forall j :: 0 <= j < |init| ==> init[j] == args[j];
      if HasSequenceArg(args) && !IsSequenceArg(args[|args| - 1]) {
        var j :| 0 <= j < |args| && IsSequenceArg(args[j]);
        assert j < |init| && IsSequenceArg(init[j]);
      }
    }
  }

  /** The arguments that are neither `id` nor `uuid` and come after the first `id` or `uuid`, in order. */
  function AfterFirstSequence(args: Arguments): Arguments
  {
    if args == [] then []
    else
      var init, last := args[..|args| - 1], args[|args| - 1];
      AfterFirstSequence(init) + (if !IsSequenceArg(last) && Seen(init) then [last] else [])
  }

  /** The index of the first `id` or `uuid` argument. */
  function FirstSequenceIndex(args: Arguments): nat
  {
    FirstIndex(args, IsSequenceArg)
  }

  /**
   * What `expand_sequence` leaves in the sequenced list: nothing when no id
   * or uuid was extracted; otherwise the arguments before the first `id` or
   * `uuid`, the sequence as one `exp` argument, and every later argument
   * that is neither `id` nor `uuid`.
   */
  function Sequenced(args: Arguments, c: Collaborators): Arguments
  {
    var ids, uuids := ExtractedIds(args, c.extractId), ExtractedUuids(args, c.extractUuid);
    if ids == [] && uuids == [] then []
    else args[..FirstSequenceIndex(args)] + [(SequenceText(ids, uuids), Exp)] + AfterFirstSequence(args)
  }

  /** Without `id` and `uuid` arguments nothing is extracted. */
  lemma {:induction false} NothingExtracted(args: Arguments, c: Collaborators)
    requires !HasSequenceArg(args)
    ensures ExtractedIds(args, c.extractId) == [] && ExtractedUuids(args, c.extractUuid) == []
  {
    if args != [] {
      var init := args[..|args| - 1];
      assert !HasSequenceArg(init) by {
        forall j | 0 <= j < |init| ensures !IsSequenceArg(init[j]) {
          assert init[j] == args[j];
        }
      }
      NothingExtracted(init, c);
    }
  }

  /**
   * Without `id` and `uuid` arguments the sequenced list is empty: the
   * other arguments are dropped, not passed through.
   */
  lemma SequencedWithoutSequence(args: Arguments, c: Collaborators)
    requires !HasSequenceArg(args)
    ensures Sequenced(args, c) == []
  {
    NothingExtracted(args, c);
  }

  /** The arguments before the first `id`/`uuid` and those kept after it are, together, all the others. */
  lemma {:induction false} SplitUnsequenced(args: Arguments)
    ensures args[..FirstSequenceIndex(args)] + AfterFirstSequence(args) == Unsequenced(args)
  {
    if args != [] {
      var init, last := args[..|args| - 1], args[|args| - 1];
      assert args == init + [last];
      SplitUnsequenced(init);
      FirstIndexSnoc(init, last, IsSequenceArg);
      var ki := FirstSequenceIndex(init);
      if ki < |init| {
        SeenIff(init);
        assert IsSequenceArg(init[ki]);
        assert args[..ki] == init[..ki];
      } else {
        NoneSeen(init);
        if IsSequenceArg(last) {
          assert args[..|init|] == init;
        } else {
          assert args[..|args|] == args;
        }
      }
    }
  }

  /** Before any `id` or `uuid`, nothing has been seen, nothing is kept after one, and nothing is removed. */
  lemma {:induction false} NoneSeen(args: Arguments)
    requires FirstSequenceIndex(args) == |args|
    ensures !Seen(args) && AfterFirstSequence(args) == [] && Unsequenced(args) == args
  {
    if args != [] {
      var init, last := args[..|args| - 1], args[|args| - 1];
      assert args == init + [last];
      FirstIndexSnoc(init, last, IsSequenceArg);
      NoneSeen(init);
    }
  }

  /** The list without `id` and `uuid` arguments has none. */
  lemma {:induction false} UnsequencedHasNone(args: Arguments)
    ensures !HasSequenceArg(Unsequenced(args))
  {
    if args != [] {
      UnsequencedHasNone(args[..|args| - 1]);
    }
  }

  /**
   * When a sequence was extracted, the sequenced list is the list without
   * its `id` and `uuid` arguments, in their original order, with exactly
   * one new `exp` argument holding the sequence at the place of the first
   * `id` or `uuid`.
   */
  lemma SequencedShape(args: Arguments, c: Collaborators)
    requires ExtractedIds(args, c.extractId) != [] || ExtractedUuids(args, c.extractUuid) != []
    ensures var r, k := Sequenced(args, c), FirstSequenceIndex(args);
      k < |r| &&
      r[k] == (SequenceText(ExtractedIds(args, c.extractId), ExtractedUuids(args, c.extractUuid)), Exp) &&
      r[..k] + r[k + 1..] == Unsequenced(args)
    ensures !HasSequenceArg(Sequenced(args, c))
  {
    var k := FirstSequenceIndex(args);
    var entry := (SequenceText(ExtractedIds(args, c.extractId), ExtractedUuids(args, c.extractUuid)), Exp);
    SplitUnsequenced(args);
    UnsequencedHasNone(args);
    Spliced(args[..k], entry, AfterFirstSequence(args));
  }

  /** An entry spliced between two lists: it sits at the seam, and around it are the two lists. */
  lemma Spliced(head: Arguments, entry: Argument, tail: Arguments)
    requires !HasSequenceArg(head + tail) && !IsSequenceArg(entry)
    ensures var r := head + [entry] + tail;
      |head| < |r| && r[|head|] == entry && r[..|head|] + r[|head| + 1..] == head + tail && !HasSequenceArg(r)
  {
    var r := head + [entry] + tail;
    assert r[..|head|] == head && r[|head| + 1..] == tail;
    forall j | 0 <= j < |r| ensures !IsSequenceArg(r[j]) {
      if j < |head| {
        assert r[j] == (head + tail)[j];
      } else if j > |head| {
        assert r[j] == (head + tail)[j - 1];
      }
    }
  }

  lemma IdTermsExample()
    ensures IdTerms([1, 3, 4, 5]) == ["id=1", "id=3", "id=4", "id=5"]
  {
    assert IntToString(1) == "1" && IntToString(3) == "3" && IntToString(4) == "4" && IntToString(5) == "5";
    IdTermsSnoc([], 1);
    assert [] + [1] == [1];
    IdTermsSnoc([1], 3);
    assert [1] + [3] == [1, 3];
    IdTermsSnoc([1, 3], 4);
    assert [1, 3] + [4] == [1, 3, 4];
    IdTermsSnoc([1, 3, 4], 5);
    assert [1, 3, 4] + [5] == [1, 3, 4, 5];
    assert "id=" + IntToString(1) == "id=1" && "id=" + IntToString(3) == "id=3";
    assert "id=" + IntToString(4) == "id=4" && "id=" + IntToString(5) == "id=5";
  }

  /**
   * With ids 1, 3, 4, 5 and a uuid `u`, the sequence lists each id on its
   * own, then the uuid: `(id=1 or id=3 or id=4 or id=5 or uuid="u")`.
   */
  lemma SequenceTextExample(u: string)
    ensures SequenceText([1, 3, 4, 5], [u])
         == "(" + ("id=1" + " or " + "id=3" + " or " + "id=4" + " or " + "id=5") + " or " + ("uuid=\"" + u + "\"") + ")"
  {
    IdTermsExample();
    JoinedFour("id=1", "id=3", "id=4", "id=5", " or ");
    assert UuidTerms([u]) == ["uuid=\"" + u + "\""];
  }

  /** With uuids and no ids, the sequence starts with a dangling ` or `. */
  lemma SequenceTextWithoutIds(uuids: seq<string>)
    requires uuids != []
    ensures SequenceText([], uuids)[..5] == "( or "
  {
  }

  // ------------------------------------------------------------------
  // to_infix and its expand_* helpers

  /** The categories `to_infix` accepts; every other one, `op` and `dom` included, is an error. */
  predicate Recognized(category: Category) {
    !(category.Op? || category.Dom? || category.Other?)
  }

  predicate AllRecognized(args: Arguments) {
    forall j :: 0 <= j < |args| ==> Recognized(args[j].1)
  }

  function UnrecognizedCategory(category: Category): string {
    "Error: unrecognized argument category '" + category.Name() + "'"
  }

  /** A domain, an operator and a literal, as the infix list holds a term. */
  function Triple(domain: string, operator: string, literal: string): Arguments {
    [(domain, Dom), (operator, Op), (literal, Exp)]
  }

  /** `+name` becomes `tags ~ name`, and any other sign `tags !~ name`. */
  function TagTerm(input: string, c: Collaborators): Arguments {
    var tag := c.extractTag(input);
    Triple("tags", if tag.0 == '+' then "~" else "!~", tag.1)
  }

  /** `name:value` becomes `name = value`. */
  function AttrTerm(input: string, c: Collaborators): Arguments {
    var attr := c.extractAttr(input);
    Triple(attr.0, "=", attr.1)
  }

  /** The modifiers that `expand_attmod` turns into a term. */
  const Modifiers: set<string> :=
    {"before", "under", "below", "after", "over", "above", "none", "any",
     "is", "equals", "isnt", "not", "has", "contains", "hasnt"}

  /** The modifiers that `expand_attmod` recognizes but turns into nothing. */
  const UnsupportedModifiers: set<string> := {"startswith", "left", "endswith", "right", "word", "noword"}

  /**
   * The operator a modifier stands for, and whether the literal is the
   * empty-string token `""` instead of the value.
   */
  function ModifierOperator(mod: string): Option<(string, bool)>
  {
    match mod
    case "before" => Some(("<", false))
    case "under" => Some(("<", false))
    case "below" => Some(("<", false))
    case "after" => Some((">", false))
    case "over" => Some((">", false))
    case "above" => Some((">", false))
    case "none" => Some(("==", true))
    case "any" => Some(("!=", true))
    case "is" => Some(("=", false))
    case "equals" => Some(("=", false))
    case "isnt" => Some(("!=", false))
    case "not" => Some(("!=", false))
    case "has" => Some(("~", false))
    case "contains" => Some(("~", false))
    case "hasnt" => Some(("!~", false))
    case _ => None
  }

  /** The table covers exactly the fifteen modifiers, and `""` is the literal exactly for `none` and `any`. */
  lemma ModifierTable(mod: string)
    ensures ModifierOperator(mod).Some? <==> mod in Modifiers
    ensures ModifierOperator(mod).Some? ==> (ModifierOperator(mod).value.1 <==> mod == "none" || mod == "any")
  {
  }

  /** `name.mod:value` becomes `name <op> value` per the modifier table, or nothing. */
  function AttmodTerm(input: string, c: Collaborators): Arguments {
    var attmod := c.extractAttmod(input);
    match ModifierOperator(attmod.1)
    case None => []
    case Some(entry) => Triple(attmod.0, entry.0, if entry.1 then "\"\"" else attmod.2)
  }

  /** A bare word becomes `description ~ word`. */
  function WordTerm(input: string): Arguments {
    Triple("description", "~", input)
  }

  /** `/text/` becomes `description ~ text`. */
  function PatternTerm(input: string, c: Collaborators): Arguments {
    Triple("description", "~", c.extractPattern(input))
  }

  /** What `to_infix` appends for one argument of a recognized category (besides a conjunction). */
  function Expansion(arg: Argument, c: Collaborators): Arguments
    requires Recognized(arg.1)
  {
    match arg.1
    case Tag => TagTerm(arg.0, c)
    case Pattern => PatternTerm(arg.0, c)
    case Attribute => AttrTerm(arg.0, c)
    case Attmod => AttmodTerm(arg.0, c)
    case Word => WordTerm(arg.0)
    case Exp => [arg]
    case _ => []
  }

  /** The implicit `and` before an argument: old style, and neither it nor the previous one is an operator. */
  function Conjunction(newStyle: bool, previous: Category, category: Category): Arguments {
    if !newStyle && previous != Op && category != Op then [("and", Op)] else []
  }

  /** The category of the last argument, `op` before the first. */
  function PreviousCategory(args: Arguments): Category {
    if args == [] then Op else args[|args| - 1].1
  }

  /** New-style input: some original argument is an operator. */
  predicate NewStyle(args: Arguments, isOperator: string -> bool) {
    exists j :: 0 <= j < |args| && isOperator(args[j].0)
  }

  /** The infix list `to_infix` builds, or the error it throws at the first unrecognized category. */
  function Infix(args: Arguments, newStyle: bool, c: Collaborators): Result<Arguments, string>
  {
    if args == [] then Ok([])
    else
      var init, last := args[..|args| - 1], args[|args| - 1];
      match Infix(init, newStyle, c)
      case Err(e) => Err(e)
      case Ok(out) =>
        if Recognized(last.1) then Ok(out + Conjunction(newStyle, PreviousCategory(init), last.1) + Expansion(last, c))
        else Err(UnrecognizedCategory(last.1))
  }

  /** Every argument's expansion, one after the other. */
  function Expanded(args: Arguments, c: Collaborators): Arguments
    requires AllRecognized(args)
  {
    if args == [] then []
    else Expanded(args[..|args| - 1], c) + Expansion(args[|args| - 1], c)
  }

  /** Every argument's expansion, with `and` between one and the next. */
  function AndJoined(args: Arguments, c: Collaborators): Arguments
    requires AllRecognized(args)
  {
    if args == [] then []
    else
      var init := args[..|args| - 1];
      AndJoined(init, c) + (if init == [] then [] else [("and", Op)]) + Expansion(args[|args| - 1], c)
  }

  /** One more argument extends a successful conversion by its conjunction and its expansion, or throws. */
  lemma InfixStep(args: Arguments, i: nat, newStyle: bool, c: Collaborators)
    requires i < |args| && Infix(args[..i], newStyle, c).Ok?
    ensures Infix(args[..i + 1], newStyle, c) ==
      if Recognized(args[i].1) then
        Ok(Infix(args[..i], newStyle, c).value + Conjunction(newStyle, PreviousCategory(args[..i]), args[i].1) + Expansion(args[i], c))
      else Err(UnrecognizedCategory(args[i].1))
  {
    assert args[..i + 1][..i] == args[..i];
  }

  /** Once `to_infix` has thrown for a prefix, it throws the same for the whole list. */
  lemma {:induction false} InfixFailureSticks(args: Arguments, k: nat, newStyle: bool, c: Collaborators)
    requires k <= |args| && Infix(args[..k], newStyle, c).Err?
    ensures Infix(args, newStyle, c) == Infix(args[..k], newStyle, c)
    decreases |args|
  {
    if k < |args| {
      var init := args[..|args| - 1];
      assert init[..k] == args[..k];
      InfixFailureSticks(init, k, newStyle, c);
    } else {
      assert args[..k] == args;
    }
  }

  /**
   * `to_infix` throws exactly when some category is unrecognized, and the
   * message names the first such category.
   */
  lemma {:induction false} InfixFails(args: Arguments, newStyle: bool, c: Collaborators)
    ensures var k := FirstIndex(args, (arg: Argument) => !Recognized(arg.1));
      k < |args| ==> Infix(args, newStyle, c) == Err(UnrecognizedCategory(args[k].1))
    ensures Infix(args, newStyle, c).Err? <==> !AllRecognized(args)
  {
    var p := (arg: Argument) => !Recognized(arg.1);
    if args != [] {
      var init, last := args[..|args| - 1], args[|args| - 1];
      InfixFails(init, newStyle, c);
      assert args == init + [last];
      InfixSnoc(init, last, newStyle, c);
      FirstIndexSnoc(init, last, p);
      AllRecognizedSnoc(init, last);
    }
  }

  /** Converting a list one longer: the conversion so far, then the last argument's. */
  lemma InfixSnoc(init: Arguments, last: Argument, newStyle: bool, c: Collaborators)
    ensures Infix(init + [last], newStyle, c) ==
      if Infix(init, newStyle, c).Err? then Infix(init, newStyle, c)
      else if Recognized(last.1) then
        Ok(Infix(init, newStyle, c).value + Conjunction(newStyle, PreviousCategory(init), last.1) + Expansion(last, c))
      else Err(UnrecognizedCategory(last.1))
  {
    assert (init + [last])[..|init|] == init;
  }

  /** Where the first match in a list one longer lies. */
  lemma FirstIndexSnoc<T>(s: seq<T>, x: T, p: T -> bool)
    ensures FirstIndex(s + [x], p) ==
      if FirstIndex(s, p) < |s| then FirstIndex(s, p) else if p(x) then |s| else |s| + 1
  {
    var k, ks := FirstIndex(s + [x], p), FirstIndex(s, p);
    assert forall j :: 0 <= j < |s| ==> (s + [x])[j] == s[j];
    if ks < |s| {
      assert p((s + [x])[ks]);
    } else if p(x) {
      assert p((s + [x])[|s|]);
    }
  }

  lemma AllRecognizedSnoc(args: Arguments, arg: Argument)
    ensures AllRecognized(args + [arg]) <==> AllRecognized(args) && Recognized(arg.1)
  {
    assert forall j :: 0 <= j < |args| ==> (args + [arg])[j] == args[j];
    assert (args + [arg])[|args|] == arg;
  }

  /** New-style input never gets an implicit `and`: the infix list is the expansions alone. */
  lemma {:induction false} InfixNewStyle(args: Arguments, c: Collaborators)
    requires AllRecognized(args)
    ensures Infix(args, true, c) == Ok(Expanded(args, c))
  {
    if args != [] {
      var init, last := args[..|args| - 1], args[|args| - 1];
      InfixNewStyle(init, c);
      assert Recognized(last.1);
      assert Conjunction(true, PreviousCategory(init), last.1) == [];
      assert Infix(args, true, c) == Ok(Expanded(init, c) + [] + Expansion(last, c));
      assert Expanded(init, c) + [] == Expanded(init, c);
    }
  }

  /**
   * Old-style input gets an `and` before every argument but the first:
   * since `op` is not a category `to_infix` accepts, the previous category
   * is never `op` once an argument has been seen.
   */
  lemma {:induction false} InfixOldStyle(args: Arguments, c: Collaborators)
    requires AllRecognized(args)
    ensures Infix(args, false, c) == Ok(AndJoined(args, c))
  {
    if args != [] {
      var init := args[..|args| - 1];
      InfixOldStyle(init, c);
      if init != [] {
        assert Recognized(init[|init| - 1].1);
      }
    }
  }

  /** The categories left in the infix list. */
  predicate InfixCategory(category: Category) {
    category == Dom || category == Op || category == Exp
  }

  /** One argument's expansion holds only domains, operators and expressions. */
  lemma ExpansionCategories(arg: Argument, c: Collaborators)
    requires Recognized(arg.1)
    ensures forall j :: 0 <= j < |Expansion(arg, c)| ==> InfixCategory(Expansion(arg, c)[j].1)
  {
    if arg.1 == Attmod {
      assert AttmodTerm(arg.0, c) == [] || |AttmodTerm(arg.0, c)| == 3;
    }
  }

  /** No legacy category survives `to_infix`: every entry is a domain, an operator or an expression. */
  lemma {:induction false} InfixCategories(args: Arguments, newStyle: bool, c: Collaborators)
    requires Infix(args, newStyle, c).Ok?
    ensures forall j :: 0 <= j < |Infix(args, newStyle, c).value| ==> InfixCategory(Infix(args, newStyle, c).value[j].1)
  {
    if args != [] {
      var init, last := args[..|args| - 1], args[|args| - 1];
      InfixCategories(init, newStyle, c);
      var out := Infix(init, newStyle, c).value;
      var added := Conjunction(newStyle, PreviousCategory(init), last.1) + Expansion(last, c);
      ExpansionCategories(last, c);
      assert forall j :: 0 <= j < |added| ==> InfixCategory(added[j].1);
      assert Infix(args, newStyle, c).value == out + added;
    }
  }

  /**
   * Tags, attributes, words and patterns each become one domain, one
   * operator and one literal; a tag's operator is `~` exactly when its sign
   * is `+`, else `!~`.
   */
  lemma FixedTerms(input: string, c: Collaborators)
    ensures var t := TagTerm(input, c);
      |t| == 3 && t[0] == ("tags", Dom) && t[2] == (c.extractTag(input).1, Exp) &&
      t[1] == (if c.extractTag(input).0 == '+' then "~" else "!~", Op)
    ensures AttrTerm(input, c) == [(c.extractAttr(input).0, Dom), ("=", Op), (c.extractAttr(input).1, Exp)]
    ensures WordTerm(input) == [("description", Dom), ("~", Op), (input, Exp)]
    ensures PatternTerm(input, c) == [("description", Dom), ("~", Op), (c.extractPattern(input), Exp)]
  {
  }

  /**
   * The modifier table: a modifier of the table gives `name <op> literal`,
   * with the `""` literal for `none` and `any`; every other modifier, the
   * unsupported ones included, gives nothing.
   */
  lemma AttmodTable(input: string, c: Collaborators)
    ensures var attmod := c.extractAttmod(input);
      attmod.1 in Modifiers ==>
        |AttmodTerm(input, c)| == 3 && AttmodTerm(input, c)[0] == (attmod.0, Dom) &&
        AttmodTerm(input, c)[1].1 == Op &&
        AttmodTerm(input, c)[2] == (if attmod.1 in {"none", "any"} then "\"\"" else attmod.2, Exp)
    ensures var attmod := c.extractAttmod(input);
      var operator := if |AttmodTerm(input, c)| == 3 then AttmodTerm(input, c)[1].0 else "";
      (attmod.1 in {"before", "under", "below"} ==> operator == "<") &&
      (attmod.1 in {"after", "over", "above"} ==> operator == ">") &&
      (attmod.1 == "none" ==> operator == "==") &&
      (attmod.1 == "any" ==> operator == "!=") &&
      (attmod.1 in {"is", "equals"} ==> operator == "=") &&
      (attmod.1 in {"isnt", "not"} ==> operator == "!=") &&
      (attmod.1 in {"has", "contains"} ==> operator == "~") &&
      (attmod.1 == "hasnt" ==> operator == "!~")
    ensures c.extractAttmod(input).1 !in Modifiers ==> AttmodTerm(input, c) == []
    ensures c.extractAttmod(input).1 in UnsupportedModifiers ==> AttmodTerm(input, c) == []
  {
  }

  // ------------------------------------------------------------------
  // expand_expression

  /** Tokens tagged `op` when they are operators, else `dom`. */
  function Classified(tokens: seq<string>, isOperator: string -> bool): (r: Arguments)
    ensures |r| == |tokens|
    ensures forall j :: 0 <= j < |r| ==> r[j] == (tokens[j], if isOperator(tokens[j]) then Op else Dom)
  {
    if tokens == [] then []
    else
      var t := tokens[|tokens| - 1];
      Classified(tokens[..|tokens| - 1], isOperator) + [(t, if isOperator(t) then Op else Dom)]
  }

  /** Each `exp` entry replaced by its classified tokens, every other entry kept. */
  function Lexed(args: Arguments, c: Collaborators): Arguments
  {
    if args == [] then []
    else
      var last := args[|args| - 1];
      Lexed(args[..|args| - 1], c)
        + (if last.1 == Exp then Classified(c.tokenize(last.0), c.infixIsOperator) else [last])
  }

  /** Lexing works entry by entry: lexing a concatenation concatenates the lexed parts. */
  lemma {:induction false} LexedAppend(xs: Arguments, ys: Arguments, c: Collaborators)
    ensures Lexed(xs + ys, c) == Lexed(xs, c) + Lexed(ys, c)
    decreases |ys|
  {
    if ys == [] {
      assert xs + ys == xs;
    } else {
      var init := ys[..|ys| - 1];
      assert (xs + ys)[..|xs + ys| - 1] == xs + init;
      LexedAppend(xs, init, c);
    }
  }

  /** Entries other than `exp` are left as they are. */
  lemma {:induction false} LexedKeeps(args: Arguments, c: Collaborators)
    requires forall j :: 0 <= j < |args| ==> args[j].1 != Exp
    ensures Lexed(args, c) == args
  {
    if args != [] {
      var init, last := args[..|args| - 1], args[|args| - 1];
      assert last.1 != Exp;
      assert Lexed(args, c) == Lexed(init, c) + [last];
      LexedKeeps(init, c);
      assert args == init + [last];
    }
  }

  /** No `exp` entry is left after lexing. */
  lemma {:induction false} LexedLeavesNoExpression(args: Arguments, c: Collaborators)
    ensures forall j :: 0 <= j < |Lexed(args, c)| ==> Lexed(args, c)[j].1 != Exp
  {
    if args != [] {
      LexedLeavesNoExpression(args[..|args| - 1], c);
    }
  }

  /** Lexing an infix list leaves only operators and domains. */
  lemma {:induction false} LexedCategories(args: Arguments, c: Collaborators)
    requires forall j :: 0 <= j < |args| ==> InfixCategory(args[j].1)
    ensures forall j :: 0 <= j < |Lexed(args, c)| ==> Lexed(args, c)[j].1 .Lexical()
  {
    if args != [] {
      LexedCategories(args[..|args| - 1], c);
    }
  }

  /**
   * Whatever the input, when compilation succeeds the final infix list
   * holds only `op` and `dom` entries: no legacy category and no `exp`.
   */
  lemma Compiled(args: Arguments, c: Collaborators)
    requires Infix(Sequenced(args, c), NewStyle(args, c.isOperator), c).Ok?
    ensures var infix := Lexed(Infix(Sequenced(args, c), NewStyle(args, c.isOperator), c).value, c);
      forall j :: 0 <= j < |infix| ==> infix[j].1 .Lexical()
  {
    InfixCategories(Sequenced(args, c), NewStyle(args, c.isOperator), c);
    LexedCategories(Infix(Sequenced(args, c), NewStyle(args, c.isOperator), c).value, c);
  }

  /** The inner loop of `expand_expression`: tags each token `op` or `dom`. */
  method ClassifyTokens(tokens: seq<string>, isOperator: string -> bool) returns (entries: Arguments)
    ensures entries == Classified(tokens, isOperator)
  {
    entries := [];
    var j := 0;
    while j < |tokens|
      invariant 0 <= j <= |tokens|
      invariant entries == Classified(tokens[..j], isOperator)
    {
      assert tokens[..j + 1][..j] == tokens[..j];
      if isOperator(tokens[j]) {
        entries := entries + [(tokens[j], Op)];
      } else {
        entries := entries + [(tokens[j], Dom)];
      }
      j := j + 1;
    }
    assert tokens[..j] == tokens;
  }

  // ------------------------------------------------------------------
  // The steps of expand_sequence

  /** Extracts the ids and uuids of every `id` and `uuid` argument, in order. */
  method CollectSequence(args: Arguments, c: Collaborators) returns (ids: seq<int>, uuids: seq<string>)
    ensures ids == ExtractedIds(args, c.extractId) && uuids == ExtractedUuids(args, c.extractUuid)
  {
    ids, uuids := [], [];
    var i := 0;
    while i < |args|
      invariant 0 <= i <= |args|
      invariant ids == ExtractedIds(args[..i], c.extractId)
      invariant uuids == ExtractedUuids(args[..i], c.extractUuid)
    {
      assert args[..i + 1][..i] == args[..i];
      if args[i].1 == Id {
        ids := ids + c.extractId(args[i].0);
      } else if args[i].1 == Uuid {
        uuids := uuids + c.extractUuid(args[i].0);
      }
      i := i + 1;
    }
    assert args[..i] == args;
  }

  /** Writes the ids, then the uuids, as one parenthesized disjunction. */
  method FormatSequence(ids: seq<int>, uuids: seq<string>) returns (sequence: string)
    ensures sequence == SequenceText(ids, uuids)
  {
    var idText := FormatIds(ids);
    sequence := "(" + idText;
    if |uuids| > 0 {
      var uuidText := FormatUuids(uuids);
      sequence := sequence + " or " + uuidText;
    }
    sequence := sequence + ")";
  }

  /** Writes `id=<i>` for every id, with ` or ` between one and the next. */
  method FormatIds(ids: seq<int>) returns (text: string)
    ensures text == Joined(IdTerms(ids), " or ")
  {
    text := "";
    var i := 0;
    while i < |ids|
      invariant 0 <= i <= |ids|
      invariant text == Joined(IdTerms(ids[..i]), " or ")
    {
      var term := "id=" + IntToString(ids[i]);
      IdTextStep(ids, i);
      if i > 0 {
        text := text + " or ";
      }
      text := text + term;
      i := i + 1;
    }
    assert ids[..i] == ids;
  }

  /** Writes `uuid="<u>"` for every uuid, with ` or ` between one and the next. */
  method FormatUuids(uuids: seq<string>) returns (text: string)
    ensures text == Joined(UuidTerms(uuids), " or ")
  {
    text := "";
    var i := 0;
    while i < |uuids|
      invariant 0 <= i <= |uuids|
      invariant text == Joined(UuidTerms(uuids[..i]), " or ")
    {
      var term := "uuid=\"" + uuids[i] + "\"";
      UuidTextStep(uuids, i);
      if i > 0 {
        text := text + " or ";
      }
      text := text + term;
      i := i + 1;
    }
    assert uuids[..i] == uuids;
  }

  /** Copies the arguments up to the first `id` or `uuid`. */
  method CopyBeforeSequence(args: Arguments) returns (r: Arguments)
    ensures r == args[..FirstSequenceIndex(args)]
  {
    r := [];
    var i := 0;
    while i < |args| && !IsSequenceArg(args[i])
      invariant 0 <= i <= |args|
      invariant forall j :: 0 <= j < i ==> !IsSequenceArg(args[j])
      invariant r == args[..i]
    {
      r := r + [args[i]];
      i := i + 1;
    }
  }

  /** Copies every argument that is neither `id` nor `uuid` and follows the first `id` or `uuid`. */
  method CopyAfterSequence(args: Arguments) returns (r: Arguments)
    ensures r == AfterFirstSequence(args)
  {
    r := [];
    var found := false;
    var i := 0;
    while i < |args|
      invariant 0 <= i <= |args|
      invariant found == Seen(args[..i])
      invariant r == AfterFirstSequence(args[..i])
    {
      assert args[..i + 1][..i] == args[..i];
      if IsSequenceArg(args[i]) {
        found := true;
      } else if found {
        r := r + [args[i]];
      }
      i := i + 1;
    }
    assert args[..i] == args;
  }

  // ------------------------------------------------------------------
  // The compiler object

  class Expression {
    const c: Collaborators
    var original: Arguments
    var sequenced: Arguments
    var infix: Arguments
    var postfix: Arguments
    /** The message the stages threw, if any. */
    var error: Option<string>

    /**
     * Keeps the arguments and runs the four stages on them, with the three
     * working lists starting empty; a thrown message is kept in `error`.
     */
    constructor (arguments: Arguments, collaborators: Collaborators)
      requires forall j :: 0 <= j < |arguments| ==> arguments[j].1.Canonical()
      ensures c == collaborators && original == arguments
      ensures sequenced == Sequenced(arguments, collaborators)
      ensures error.None? ==>
        Infix(sequenced, NewStyle(arguments, collaborators.isOperator), collaborators).Ok? &&
        infix == Lexed(Infix(sequenced, NewStyle(arguments, collaborators.isOperator), collaborators).value, collaborators)
      ensures error.Some? ==>
        Infix(sequenced, NewStyle(arguments, collaborators.isOperator), collaborators) == Err(error.value)
      ensures postfix == []
    {
      c := collaborators;
      original := arguments;
      sequenced, infix, postfix := [], [], [];
      error := None;
      new;
      error := Build();
    }

    /**
     * The four stages the constructor runs: sequence expansion, infix
     * conversion, sub-expression lexing and postfix conversion; it stops at
     * the error `to_infix` throws.
     */
    method Build() returns (err: Option<string>)
      modifies this`sequenced, this`infix, this`postfix
      ensures sequenced == Sequenced(original, c)
      ensures err.None? ==>
        Infix(sequenced, NewStyle(original, c.isOperator), c).Ok? &&
        infix == Lexed(Infix(sequenced, NewStyle(original, c.isOperator), c).value, c) && postfix == []
      ensures err.Some? ==>
        Infix(sequenced, NewStyle(original, c.isOperator), c) == Err(err.value) && postfix == old(postfix)
    {
      ExpandSequence();
      err := ToInfix();
      if err.Some? {
        return;
      }
      ExpandExpression();
      ToPostfix();
    }

    /** Evaluation is not implemented: every task matches. */
    method Eval<T>(task: T) returns (matches: bool)
      ensures matches
    {
      matches := true;
    }

    /** Folds the `id` and `uuid` arguments into one algebraic `exp` argument. */
    method ExpandSequence()
      modifies this`sequenced
      ensures sequenced == Sequenced(original, c)
    {
      sequenced := [];
      var ids, uuids := CollectSequence(original, c);
      if |ids| == 0 && |uuids| == 0 {
        return;
      }
      var sequence := FormatSequence(ids, uuids);
      var before := CopyBeforeSequence(original);
      var after := CopyAfterSequence(original);
      sequenced := before + [(sequence, Exp)] + after;
    }

    /** Appends the term of a tag. */
    method ExpandTag(input: string)
      modifies this`infix
      ensures infix == old(infix) + TagTerm(input, c)
    {
      var tag := c.extractTag(input);
      var sign, value := tag.0, tag.1;
      infix := infix + [("tags", Dom)];
      infix := infix + [(if sign == '+' then "~" else "!~", Op)];
      infix := infix + [(value, Exp)];
    }

    /** Appends the term of an attribute. */
    method ExpandAttr(input: string)
      modifies this`infix
      ensures infix == old(infix) + AttrTerm(input, c)
    {
      var attr := c.extractAttr(input);
      var name, value := attr.0, attr.1;
      infix := infix + [(name, Dom)];
      infix := infix + [("=", Op)];
      infix := infix + [(value, Exp)];
    }

    /** Appends the term of an attribute modifier, or nothing for a modifier outside the table. */
    method ExpandAttmod(input: string)
      modifies this`infix
      ensures infix == old(infix) + AttmodTerm(input, c)
    {
      var attmod := c.extractAttmod(input);
      var name, mod, value := attmod.0, attmod.1, attmod.2;
      if mod == "before" || mod == "under" || mod == "below" {
        infix := infix + [(name, Dom), ("<", Op), (value, Exp)];
      } else if mod == "after" || mod == "over" || mod == "above" {
        infix := infix + [(name, Dom), (">", Op), (value, Exp)];
      } else if mod == "none" {
        infix := infix + [(name, Dom), ("==", Op), ("\"\"", Exp)];
      } else if mod == "any" {
        infix := infix + [(name, Dom), ("!=", Op), ("\"\"", Exp)];
      } else if mod == "is" || mod == "equals" {
        infix := infix + [(name, Dom), ("=", Op), (value, Exp)];
      } else if mod == "isnt" || mod == "not" {
        infix := infix + [(name, Dom), ("!=", Op), (value, Exp)];
      } else if mod == "has" || mod == "contains" {
        infix := infix + [(name, Dom), ("~", Op), (value, Exp)];
      } else if mod == "hasnt" {
        infix := infix + [(name, Dom), ("!~", Op), (value, Exp)];
      } else if mod == "startswith" || mod == "left" {
        // not implemented
      } else if mod == "endswith" || mod == "right" {
        // not implemented
      } else if mod == "word" {
        // not implemented
      } else if mod == "noword" {
        // not implemented
      }
    }

    /** Appends the term of a bare word. */
    method ExpandWord(input: string)
      modifies this`infix
      ensures infix == old(infix) + WordTerm(input)
    {
      infix := infix + [("description", Dom)];
      infix := infix + [("~", Op)];
      infix := infix + [(input, Exp)];
    }

    /** Appends the term of a pattern. */
    method ExpandPattern(input: string)
      modifies this`infix
      ensures infix == old(infix) + PatternTerm(input, c)
    {
      var value := c.extractPattern(input);
      infix := infix + [("description", Dom)];
      infix := infix + [("~", Op)];
      infix := infix + [(value, Exp)];
    }

    /** Replaces every `exp` entry of the infix list by its classified tokens. */
    method ExpandExpression()
      modifies this`infix
      ensures infix == Lexed(old(infix), c)
    {
      var temp: Arguments := [];
      var i := 0;
      while i < |infix|
        invariant 0 <= i <= |infix|
        invariant infix == old(infix)
        invariant temp == Lexed(infix[..i], c)
      {
        assert infix[..i + 1][..i] == infix[..i];
        var arg := infix[i];
        if arg.1 == Exp {
          var entries := ClassifyTokens(c.tokenize(arg.0), c.infixIsOperator);
          temp := temp + entries;
        } else {
          temp := temp + [arg];
        }
        i := i + 1;
      }
      assert infix[..i] == infix;
      infix := temp;
    }

    /**
     * Appends the expansion of an argument of a recognized category; the
     * caller throws for any other category.
     */
    method ExpandArgument(arg: Argument) returns (recognized: bool)
      modifies this`infix
      ensures recognized == Recognized(arg.1)
      ensures infix == if recognized then old(infix) + Expansion(arg, c) else old(infix)
    {
      recognized := true;
      if arg.1 == Id || arg.1 == Uuid {
        // already folded into the sequence
      } else if arg.1 == Tag {
        ExpandTag(arg.0);
      } else if arg.1 == Pattern {
        ExpandPattern(arg.0);
      } else if arg.1 == Attribute {
        ExpandAttr(arg.0);
      } else if arg.1 == Attmod {
        ExpandAttmod(arg.0);
      } else if arg.1 == Word {
        ExpandWord(arg.0);
      } else if arg.1 == Exp {
        infix := infix + [arg];
      } else {
        recognized := false;
      }
    }

    /** Old-style filters need an `and` between two terms that are not operators. */
    method AddConjunction(newStyle: bool, previous: Category, category: Category)
      modifies this`infix
      ensures infix == old(infix) + Conjunction(newStyle, previous, category)
    {
      if !newStyle && previous != Op && category != Op {
        infix := infix + [("and", Op)];
      }
    }

    /**
     * One turn of the `to_infix` loop: the implicit `and`, then the
     * argument's expansion; the conversion of one more argument either
     * succeeds with the new infix list or throws.
     */
    method ConvertArgument(newStyle: bool, previous: Category, i: nat) returns (recognized: bool)
      requires i < |sequenced| && Infix(sequenced[..i], newStyle, c) == Ok(infix)
      requires previous == PreviousCategory(sequenced[..i])
      modifies this`infix
      ensures Infix(sequenced[..i + 1], newStyle, c) ==
        if recognized then Ok(infix) else Err(UnrecognizedCategory(sequenced[i].1))
    {
      var arg := sequenced[i];
      AddConjunction(newStyle, previous, arg.1);
      recognized := ExpandArgument(arg);
      InfixStep(sequenced, i, newStyle, c);
    }

    /**
     * Rewrites the sequenced list into the infix list, inserting `and`
     * between terms of old-style input; returns the message it throws at
     * an unrecognized category.
     */
    method ToInfix() returns (err: Option<string>)
      modifies this`infix
      ensures Infix(sequenced, NewStyle(original, c.isOperator), c) == if err.None? then Ok(infix) else Err(err.value)
    {
      infix := [];
      var newStyle := IsNewStyle();
      var previous := Op;
      var i := 0;
      while i < |sequenced|
        invariant 0 <= i <= |sequenced|
        invariant Infix(sequenced[..i], newStyle, c) == Ok(infix)
        invariant previous == PreviousCategory(sequenced[..i])
      {
        var recognized := ConvertArgument(newStyle, previous, i);
        if !recognized {
          InfixFailureSticks(sequenced, i + 1, newStyle, c);
          return Some(UnrecognizedCategory(sequenced[i].1));
        }
        assert sequenced[..i + 1][i] == sequenced[i];
        previous := sequenced[i].1;
        i := i + 1;
      }
      assert sequenced[..i] == sequenced;
      err := None;
    }

    /** Postfix conversion is not implemented: the postfix list is cleared. */
    method ToPostfix()
      modifies this`postfix
      ensures postfix == []
    {
      postfix := [];
    }

    /** Whether some original argument is an operator. */
    method IsNewStyle() returns (newStyle: bool)
      ensures newStyle == NewStyle(original, c.isOperator)
    {
      var i := 0;
      while i < |original|
        invariant 0 <= i <= |original|
        invariant forall j :: 0 <= j < i ==> !c.isOperator(original[j].0)
      {
        if c.isOperator(original[i].0) {
          return true;
        }
        i := i + 1;
      }
      return false;
    }
  }
}
