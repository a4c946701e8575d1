/**
 * `LLM.process_prompt` (src/nlp/llm.py): turns the language model's answer into the
 * list of (item, location) pairs to carry out, or into an error message.
 *
 * The model's text itself is not modelled. What the code does with it is: it first
 * tries `ast.literal_eval`, and when that raises it falls back to a regular expression
 * that collects quoted string pairs. Both are given here by their outcome, a
 * `ParseOutcome`; everything after that (the format check, the regex fallback's empty
 * case, the item and location validation, the exact error text) is modelled.
 */
module Llm {
  import opened Wrappers

  // The two messages of src/nlp/llm.py:62 and :68, each one literal in the source. They
  // are written as two literals here because the verifier sees the characters of a
  // string literal only when it is shorter than 50 characters, and the lemmas below
  // tell these messages apart from the "Errors found" answers by their sixth character.
  const InvalidFormatMessage: string := "Error: " + "Invalid response format. Expected list of tuples."
  const NoPairsMessage: string := "Error: " + "Response does not contain valid item and location pairs."
  const ErrorsFoundPrefix: string := "Errors found: "
  const InvalidItemPrefix: string := "Invalid item: "
  const InvalidLocationPrefix: string := "Invalid location: "
  const ErrorSeparator: string := ", "

  /**
   * A component of an evaluated tuple: a Python string, or any other literal value,
   * given by its `str()` text and whether it can be looked up in a set or dict.
   */
  datatype Atom = Str(text: string) | Other(shown: string, hashable: bool)

  /** An element of an evaluated list: a 2-tuple, or anything else. */
  datatype Element = Pair(item: Atom, location: Atom) | NotPair

  /** What `ast.literal_eval` produced: a list, or some other value. */
  datatype Literal = ListOf(elements: seq<Element>) | NotList

  /** `ast.literal_eval` succeeded, or it raised and these are the regex's matches. */
  datatype ParseOutcome = Evaluated(value: Literal) | Unparsable(matches: seq<(string, string)>)

  /** After the format check: the pairs to validate, or the message returned at once. */
  datatype Format = Listed(pairs: seq<(Atom, Atom)>) | FormatError(message: string)

  /**
   * What `process_prompt` gives its caller: the validated list, an error string, or the
   * `TypeError` that an unhashable item or location raises during validation.
   */
  datatype PromptResult = Accepted(pairs: seq<(string, string)>) | Message(text: string) | TypeError

  /** `str(a)`, as the f-strings of the error messages print it. */
  function Shown(a: Atom): string
  {
    match a
    case Str(t) => t
    case Other(s, _) => s
  }

  predicate Hashable(a: Atom)
  {
    a.Str? || a.hashable
  }

  /** `a in names` for a set of strings or the keys of a dict: only a string can match. */
  predicate Member(a: Atom, names: set<string>)
  {
    a.Str? && a.text in names
  }

  predicate AllPairs(es: seq<Element>)
  {
    forall k :: 0 <= k < |es| ==> es[k].Pair?
  }

  function PairsOf(es: seq<Element>): (r: seq<(Atom, Atom)>)
    requires AllPairs(es)
    ensures |r| == |es|
    ensures forall k :: 0 <= k < |es| ==> r[k] == (es[k].item, es[k].location)
  {
    seq(|es|, k requires 0 <= k < |es| => (es[k].item, es[k].location))
  }

  function StrPairs(ms: seq<(string, string)>): (r: seq<(Atom, Atom)>)
    ensures |r| == |ms|
    ensures forall k :: 0 <= k < |ms| ==> r[k] == (Str(ms[k].0), Str(ms[k].1))
  {
    seq(|ms|, k requires 0 <= k < |ms| => (Str(ms[k].0), Str(ms[k].1)))
  }

  /** The format check and the regex fallback (src/nlp/llm.py:56-69). */
  function CheckFormat(outcome: ParseOutcome): Format
  {
    match outcome
    case Evaluated(v) =>
      if v.ListOf? && AllPairs(v.elements) then Listed(PairsOf(v.elements))
      else FormatError(InvalidFormatMessage)
    case Unparsable(ms) =>
      if ms == [] then FormatError(NoPairsMessage) else Listed(StrPairs(ms))
  }

  /** The messages one pair adds: its item's first, then its location's. */
  function PairErrors(pair: (Atom, Atom), items: set<string>, locations: set<string>): seq<string>
  {
    (if Member(pair.0, items) then [] else [InvalidItemPrefix + Shown(pair.0)])
    + (if Member(pair.1, locations) then [] else [InvalidLocationPrefix + Shown(pair.1)])
  }

  /** The messages of all pairs, pair by pair in list order. */
  function AllErrors(pairs: seq<(Atom, Atom)>, items: set<string>, locations: set<string>): seq<string>
    decreases |pairs|
  {
    if pairs == [] then [] else PairErrors(pairs[0], items, locations) + AllErrors(pairs[1..], items, locations)
  }

  predicate AllHashable(pairs: seq<(Atom, Atom)>)
  {
    forall k :: 0 <= k < |pairs| ==> Hashable(pairs[k].0) && Hashable(pairs[k].1)
  }

  predicate ValidPair(pair: (Atom, Atom), items: set<string>, locations: set<string>)
  {
    Member(pair.0, items) && Member(pair.1, locations)
  }

  /** `sep.join(xs)`. */
  function Join(xs: seq<string>, sep: string): string
    decreases |xs|
  {
    if xs == [] then ""
    else if |xs| == 1 then xs[0]
    else xs[0] + sep + Join(xs[1..], sep)
  }

  function Texts(pairs: seq<(Atom, Atom)>): (r: seq<(string, string)>)
    ensures |r| == |pairs|
    ensures forall k :: 0 <= k < |pairs| ==> r[k] == (Shown(pairs[k].0), Shown(pairs[k].1))
  {
    seq(|pairs|, k requires 0 <= k < |pairs| => (Shown(pairs[k].0), Shown(pairs[k].1)))
  }

  /** What `process_prompt` returns for a parse outcome. */
  function Answer(outcome: ParseOutcome, items: set<string>, locations: set<string>): PromptResult
  {
    match CheckFormat(outcome)
    case FormatError(m) => Message(m)
    case Listed(pairs) =>
      if !AllHashable(pairs) then TypeError
      else
        var errors := AllErrors(pairs, items, locations);
        if errors != [] then Message(ErrorsFoundPrefix + Join(errors, ErrorSeparator))
        else Accepted(Texts(pairs))
  }

  /**
   * The validation loop: the messages in the order it appends them, or `None` when a
   * membership test raises `TypeError` (src/nlp/llm.py:72-77).
   */
  method Validate(pairs: seq<(Atom, Atom)>, items: set<string>, locations: set<string>)
    returns (errors: Option<seq<string>>)
    ensures errors == if AllHashable(pairs) then Some(AllErrors(pairs, items, locations)) else None
  {
    var found: seq<string> := [];
    for i := 0 to |pairs|
      invariant AllHashable(pairs[..i])
      invariant AllErrors(pairs, items, locations) == found + AllErrors(pairs[i..], items, locations)
    {
      ghost var before := found;
      var (item, location) := pairs[i];
      if !Hashable(item) {
        assert !Hashable(pairs[i].0);
        return None;
      }
      if !Member(item, items) {
        found := found + [InvalidItemPrefix + Shown(item)];
      }
      if !Hashable(location) {
        assert !Hashable(pairs[i].1);
        return None;
      }
      if !Member(location, locations) {
        found := found + [InvalidLocationPrefix + Shown(location)];
      }
      assert found == before + PairErrors(pairs[i], items, locations);
      assert pairs[..i + 1] == pairs[..i] + [pairs[i]];
      assert pairs[i..][1..] == pairs[i + 1..];
      Assoc(before, PairErrors(pairs[i], items, locations), AllErrors(pairs[i + 1..], items, locations));
    }
    assert pairs[..|pairs|] == pairs && pairs[|pairs|..] == [];
    assert AllHashable(pairs);
    assert AllErrors(pairs, items, locations) == found;
    return Some(found);
  }

  lemma Assoc(a: seq<string>, b: seq<string>, c: seq<string>)
    ensures a + (b + c) == (a + b) + c
  {
  }

  /** `process_prompt` on a parse outcome. */
  method ProcessPrompt(outcome: ParseOutcome, items: set<string>, locations: set<string>)
    returns (r: PromptResult)
    ensures r == Answer(outcome, items, locations)
  {
    var format := CheckFormat(outcome);
    if format.FormatError? {
      return Message(format.message);
    }
    var errors := Validate(format.pairs, items, locations);
    if errors.None? {
      return TypeError;
    }
    if errors.value != [] {
      return Message(ErrorsFoundPrefix + Join(errors.value, ErrorSeparator));
    }
    return Accepted(Texts(format.pairs));
  }
}

/**
 * What `process_prompt` promises, proved about `Llm.Answer` and the validation order.
 */
module LlmProperties {
  import opened Llm

  /** The messages of a concatenation are the messages of its parts, in that order. */
  lemma {:induction false} AllErrorsConcat(p: seq<(Atom, Atom)>, q: seq<(Atom, Atom)>, items: set<string>, locations: set<string>)
    ensures AllErrors(p + q, items, locations) == AllErrors(p, items, locations) + AllErrors(q, items, locations)
    decreases |p|
  {
    if p == [] {
      assert p + q == q;
    } else {
      assert (p + q)[1..] == p[1..] + q;
      AllErrorsConcat(p[1..], q, items, locations);
    }
  }

  /**
   * Pairs are checked in list order: the messages of pair `k` sit between those of the
   * pairs before it and those after it, its item's message before its location's.
   */
  lemma ErrorsInPairOrder(pairs: seq<(Atom, Atom)>, k: nat, items: set<string>, locations: set<string>)
    requires k < |pairs|
    ensures AllErrors(pairs, items, locations)
         == AllErrors(pairs[..k], items, locations) + PairErrors(pairs[k], items, locations)
            + AllErrors(pairs[k + 1..], items, locations)
    ensures PairErrors(pairs[k], items, locations)
         == (if Member(pairs[k].0, items) then [] else [InvalidItemPrefix + Shown(pairs[k].0)])
            + (if Member(pairs[k].1, locations) then [] else [InvalidLocationPrefix + Shown(pairs[k].1)])
  {
    assert pairs == pairs[..k] + ([pairs[k]] + pairs[k + 1..]);
    AllErrorsConcat(pairs[..k], [pairs[k]] + pairs[k + 1..], items, locations);
    assert ([pairs[k]] + pairs[k + 1..])[1..] == pairs[k + 1..];
  }

  /** No message at all exactly when every item and every location is known. */
  lemma {:induction false} NoErrorsIffValid(pairs: seq<(Atom, Atom)>, items: set<string>, locations: set<string>)
    ensures AllErrors(pairs, items, locations) == []
        <==> forall k :: 0 <= k < |pairs| ==> ValidPair(pairs[k], items, locations)
    decreases |pairs|
  {
    if pairs != [] {
      NoErrorsIffValid(pairs[1..], items, locations);
      if forall k :: 0 <= k < |pairs| ==> ValidPair(pairs[k], items, locations) {
        forall k | 0 <= k < |pairs[1..]|
          ensures ValidPair(pairs[1..][k], items, locations)
        {
          assert pairs[1..][k] == pairs[k + 1];
        }
      } else {
        var k :| 0 <= k < |pairs| && !ValidPair(pairs[k], items, locations);
        if k > 0 {
          assert pairs[1..][k - 1] == pairs[k];
        }
      }
    }
  }

  /** The "Errors found" answer never equals one of the two format messages. */
  lemma ErrorsFoundDiffers(rest: string)
    ensures ErrorsFoundPrefix + rest != InvalidFormatMessage
    ensures ErrorsFoundPrefix + rest != NoPairsMessage
  {
    assert (ErrorsFoundPrefix + rest)[5] == 's';
    assert InvalidFormatMessage[5] == ':' && NoPairsMessage[5] == ':';
  }

  /**
   * A literal that parses to anything but a list of 2-tuples gets exactly the format
   * message, and a list of 2-tuples never does.
   */
  lemma InvalidFormatIff(v: Literal, items: set<string>, locations: set<string>)
    ensures Answer(Evaluated(v), items, locations) == Message(InvalidFormatMessage)
        <==> !(v.ListOf? && AllPairs(v.elements))
  {
    if v.ListOf? && AllPairs(v.elements) {
      var pairs := PairsOf(v.elements);
      if AllHashable(pairs) && AllErrors(pairs, items, locations) != [] {
        ErrorsFoundDiffers(Join(AllErrors(pairs, items, locations), ErrorSeparator));
      }
    }
  }

  /** An unparsable answer gets exactly the no-pairs message when the regex found nothing. */
  lemma NoPairsIff(ms: seq<(string, string)>, items: set<string>, locations: set<string>)
    ensures Answer(Unparsable(ms), items, locations) == Message(NoPairsMessage) <==> ms == []
  {
    if ms != [] {
      var pairs := StrPairs(ms);
      if AllHashable(pairs) && AllErrors(pairs, items, locations) != [] {
        ErrorsFoundDiffers(Join(AllErrors(pairs, items, locations), ErrorSeparator));
      }
    }
  }

  lemma ValidIsHashable(pairs: seq<(Atom, Atom)>, items: set<string>, locations: set<string>)
    requires forall k :: 0 <= k < |pairs| ==> ValidPair(pairs[k], items, locations)
    ensures AllHashable(pairs)
  {
  }

  /**
   * The list is accepted exactly when the format check passes and every item and every
   * location is known; it is then returned unchanged: same length, same order, and
   * each pair's strings as parsed.
   */
  lemma AcceptedIff(outcome: ParseOutcome, items: set<string>, locations: set<string>)
    ensures Answer(outcome, items, locations).Accepted?
        <==> CheckFormat(outcome).Listed?
             && forall k :: 0 <= k < |CheckFormat(outcome).pairs| ==> ValidPair(CheckFormat(outcome).pairs[k], items, locations)
    ensures Answer(outcome, items, locations).Accepted? ==>
              var parsed := CheckFormat(outcome).pairs;
              var r := Answer(outcome, items, locations).pairs;
              |r| == |parsed|
              && forall k :: 0 <= k < |r| ==>
                   parsed[k] == (Str(r[k].0), Str(r[k].1)) && r[k].0 in items && r[k].1 in locations
  {
    var format := CheckFormat(outcome);
    if format.Listed? {
      NoErrorsIffValid(format.pairs, items, locations);
      if forall k :: 0 <= k < |format.pairs| ==> ValidPair(format.pairs[k], items, locations) {
        ValidIsHashable(format.pairs, items, locations);
      }
    }
  }

  /** The regex fallback's pairs, all known, come back as matched, in match order. */
  lemma RegexPairsReturned(ms: seq<(string, string)>, items: set<string>, locations: set<string>)
    requires ms != []
    requires forall k :: 0 <= k < |ms| ==> ms[k].0 in items && ms[k].1 in locations
    ensures Answer(Unparsable(ms), items, locations) == Accepted(ms)
  {
    var pairs := StrPairs(ms);
    assert forall k :: 0 <= k < |pairs| ==> ValidPair(pairs[k], items, locations);
    AcceptedIff(Unparsable(ms), items, locations);
    var r := Answer(Unparsable(ms), items, locations).pairs;
    assert r == ms by {
      assert |r| == |ms|;
      forall k | 0 <= k < |r| ensures r[k] == ms[k] {
        assert pairs[k] == (Str(r[k].0), Str(r[k].1));
      }
    }
  }

  /** An evaluated empty list passes the format check and comes back empty. */
  lemma EmptyListAccepted(items: set<string>, locations: set<string>)
    ensures Answer(Evaluated(ListOf([])), items, locations) == Accepted([])
  {
    assert PairsOf([]) == [];
  }

  /**
   * Validation raises `TypeError` exactly when the format check passes and some item or
   * location cannot be hashed.
   */
  lemma TypeErrorIff(outcome: ParseOutcome, items: set<string>, locations: set<string>)
    ensures Answer(outcome, items, locations) == TypeError
        <==> CheckFormat(outcome).Listed? && !AllHashable(CheckFormat(outcome).pairs)
  {
  }

  /**
   * With hashable pairs and at least one unknown item or location, the answer is the
   * single "Errors found" string listing every message, and no pair.
   */
  lemma ErrorsFoundIff(outcome: ParseOutcome, items: set<string>, locations: set<string>)
    ensures Answer(outcome, items, locations).Message?
            && |Answer(outcome, items, locations).text| >= |ErrorsFoundPrefix|
            && Answer(outcome, items, locations).text[..|ErrorsFoundPrefix|] == ErrorsFoundPrefix
        <==> CheckFormat(outcome).Listed? && AllHashable(CheckFormat(outcome).pairs)
             && exists k :: 0 <= k < |CheckFormat(outcome).pairs| && !ValidPair(CheckFormat(outcome).pairs[k], items, locations)
    ensures CheckFormat(outcome).Listed? && AllHashable(CheckFormat(outcome).pairs)
            && AllErrors(CheckFormat(outcome).pairs, items, locations) != [] ==>
              Answer(outcome, items, locations)
              == Message(ErrorsFoundPrefix + Join(AllErrors(CheckFormat(outcome).pairs, items, locations), ErrorSeparator))
  {
    var format := CheckFormat(outcome);
    if format.FormatError? {
      assert format.message[..|ErrorsFoundPrefix|] != ErrorsFoundPrefix by {
        assert format.message[5] != ErrorsFoundPrefix[5];
      }
    } else {
      NoErrorsIffValid(format.pairs, items, locations);
      var r := Answer(outcome, items, locations);
      if r.Message? {
        assert r.text[..|ErrorsFoundPrefix|] == ErrorsFoundPrefix;
      }
    }
  }
}
