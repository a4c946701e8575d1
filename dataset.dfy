/**
 * The fine-tuning data generator (llm_finetuning/dataset_creation.py): random
 * commands built from synonym tables, compound commands whose parts name distinct
 * (item, location) pairs, and the de-duplicating `add_to_dataset` with its list of
 * records, set of used inputs and per-pair counters.
 *
 * `random.choice` is an oracle: the `k`-th draw from a list of `n` options takes the
 * option at `choices(k) % n`. The shuffle, the CSV file and the printed statistics are
 * not modelled.
 */
module Dataset {
  import opened Wrappers

  /** The generator's `ITEMS_IN_SCENE`: each item's synonyms. */
  const ItemSynonyms: map<string, seq<string>> := map[
    "sugar_box" := ["sugar", "sugar box", "box of sugar", "box"],
    "large_clamp" := ["clamp", "large clamp"],
    "tuna_fish_can" := ["tuna fish can", "tuna can", "can of tuna", "tuna", "little can", "small can"],
    "master_chef_can" := ["master chef can", "big can", "chef can", "master chef"]]

  /** The generator's `LOCATIONS`: each bin's synonyms. */
  const LocationSynonyms: map<string, seq<string>> := map[
    "redBin" := ["red bin", "red trashcan", "red trash"],
    "blueBin" := ["blue bin", "blue trashcan", "blue trash"],
    "yellowBin" := ["yellow bin", "yellow trashcan", "yellow trash"]]

  /** `sorted(list(ITEMS_IN_SCENE))` and `sorted(list(LOCATIONS.keys()))`. */
  const SceneItems: seq<string> := ["large_clamp", "master_chef_can", "sugar_box", "tuna_fish_can"]
  const SceneLocations: seq<string> := ["blueBin", "redBin", "yellowBin"]

  const Verbs: seq<string> := ["Move", "put", "transfer", "throw", "place"]
  const Adverbs: seq<string> := ["inside", "in", "to"]
  const Connectors: seq<string> := ["and", "then", "after that"]

  const SampleNum: nat := 500
  /** `int(sample_num * 0.6)` and `int(sample_num * 0.3)`, exact for 500. */
  const SingleSamples: nat := SampleNum * 6 / 10
  const DoubleSamples: nat := SampleNum * 3 / 10
  const TripleSamples: nat := SampleNum - SingleSamples - DoubleSamples

  /** An (item, location) output pair. */
  type Intent = (string, string)

  /** A dataset entry: `{"input": cmd, "output": outputs}`. */
  datatype Record = Record(input: string, output: seq<Intent>)

  // ---------------------------------------------------------------------------
  // Commands.

  /** The parts of one generated command. */
  datatype Sub = Sub(verb: string, itemName: string, adverb: string, locationName: string, intent: Intent)

  /** "{verb} the {item synonym} {adverb} the {location synonym}". */
  function Text(sub: Sub): string
  {
    sub.verb + " the " + sub.itemName + " " + sub.adverb + " the " + sub.locationName
  }

  /** Every part comes from its table, and the synonyms belong to the intent's keys. */
  predicate WellFormed(sub: Sub)
  {
    && sub.intent.0 in ItemSynonyms && sub.intent.1 in LocationSynonyms
    && sub.verb in Verbs && sub.itemName in ItemSynonyms[sub.intent.0]
    && sub.adverb in Adverbs && sub.locationName in LocationSynonyms[sub.intent.1]
  }

  /** The option that draw number `k` takes. */
  function Pick<T>(choices: nat -> nat, k: nat, options: seq<T>): (x: T)
    requires options != []
    ensures x in options
  {
    options[choices(k) % |options|]
  }

  /** The sorted key lists hold exactly the keys of the synonym tables. */
  lemma SceneKeys()
    ensures forall i :: 0 <= i < |SceneItems| ==> SceneItems[i] in ItemSynonyms
    ensures forall i :: 0 <= i < |SceneLocations| ==> SceneLocations[i] in LocationSynonyms
    ensures forall x :: x in ItemSynonyms ==> x in SceneItems
    ensures forall x :: x in LocationSynonyms ==> x in SceneLocations
  {
  }

  /** Every item and every bin has at least one synonym to draw from. */
  lemma SynonymsGiven()
    ensures forall x :: x in ItemSynonyms ==> ItemSynonyms[x] != []
    ensures forall x :: x in LocationSynonyms ==> LocationSynonyms[x] != []
  {
  }

  /**
   * `generate_command` started at draw `k`: item, location, then the four words of the
   * text in the order the f-string evaluates them.
   */
  function Generated(choices: nat -> nat, k: nat): Sub
  {
    var item := Pick(choices, k, SceneItems);
    var location := Pick(choices, k + 1, SceneLocations);
    SceneKeys();
    Sub(Pick(choices, k + 2, Verbs), Pick(choices, k + 3, ItemSynonyms[item]),
        Pick(choices, k + 4, Adverbs), Pick(choices, k + 5, LocationSynonyms[location]), (item, location))
  }

  /** `text` is the text of some well-formed command for `intent`. */
  ghost predicate IsCommand(text: string, intent: Intent)
  {
    exists sub: Sub :: WellFormed(sub) && sub.intent == intent && Text(sub) == text
  }

  /** `f"{a} {connector} {b}"`. */
  function Joined(a: string, connector: string, b: string): string
  {
    a + " " + connector + " " + b
  }

  /** A record's input is its commands in output order, joined by connectors. */
  ghost predicate Composed(r: Record)
  {
    if |r.output| == 1 then IsCommand(r.input, r.output[0])
    else if |r.output| == 2 then
      exists c1: string, n: string, c2: string ::
        r.input == Joined(c1, n, c2) && n in Connectors
        && IsCommand(c1, r.output[0]) && IsCommand(c2, r.output[1])
    else if |r.output| == 3 then
      exists c1: string, n1: string, c2: string, n2: string, c3: string ::
        r.input == Joined(c1, n1, Joined(c2, n2, c3)) && n1 in Connectors && n2 in Connectors
        && IsCommand(c1, r.output[0]) && IsCommand(c2, r.output[1]) && IsCommand(c3, r.output[2])
    else false
  }

  predicate DistinctIntents(outs: seq<Intent>)
  {
    forall i, j :: 0 <= i < j < |outs| ==> outs[i] != outs[j]
  }

  // ---------------------------------------------------------------------------
  // The bookkeeping of `add_to_dataset`.

  /** How often `k` occurs in one output list. */
  function Occurrences(outs: seq<Intent>, k: Intent): nat
    decreases |outs|
  {
    if outs == [] then 0 else (if outs[0] == k then 1 else 0) + Occurrences(outs[1..], k)
  }

  /** How often `k` occurs across the outputs of all records. */
  function Tally(records: seq<Record>, k: Intent): nat
    decreases |records|
  {
    if records == [] then 0
    else Tally(records[..|records| - 1], k) + Occurrences(records[|records| - 1].output, k)
  }

  function Inputs(records: seq<Record>): set<string>
  {
    set i | 0 <= i < |records| :: records[i].input
  }

  /** The number of records with `n` output pairs. */
  function WithOutputs(records: seq<Record>, n: nat): nat
    decreases |records|
  {
    if records == [] then 0
    else WithOutputs(records[..|records| - 1], n) + (if |records[|records| - 1].output| == n then 1 else 0)
  }

  /** `counts[k]` of the `defaultdict(int)`. */
  function CountOf(counts: map<Intent, nat>, k: Intent): nat
  {
    if k in counts then counts[k] else 0
  }

  /** `counts[k] += 1`. */
  function Inc(counts: map<Intent, nat>, k: Intent): map<Intent, nat>
  {
    counts[k := CountOf(counts, k) + 1]
  }

  /** `for out in outputs: counts[out] += 1`. */
  function Bump(counts: map<Intent, nat>, outs: seq<Intent>): map<Intent, nat>
    decreases |outs|
  {
    if outs == [] then counts else Bump(Inc(counts, outs[0]), outs[1..])
  }

  predicate DistinctInputs(records: seq<Record>)
  {
    forall i, j :: 0 <= i < j < |records| ==> records[i].input != records[j].input
  }

  /**
   * The invariant of the three module-level collections: inputs are pairwise distinct,
   * `used_inputs` is their set, and each counter is the pair's number of occurrences.
   */
  ghost predicate Consistent(records: seq<Record>, used: set<string>, counts: map<Intent, nat>)
  {
    && DistinctInputs(records)
    && used == Inputs(records)
    && forall k :: CountOf(counts, k) == Tally(records, k)
  }

  lemma {:induction false} BumpCounts(counts: map<Intent, nat>, outs: seq<Intent>, k: Intent)
    ensures CountOf(Bump(counts, outs), k) == CountOf(counts, k) + Occurrences(outs, k)
    decreases |outs|
  {
    if outs != [] {
      BumpCounts(Inc(counts, outs[0]), outs[1..], k);
    }
  }

  /** Adding a record with an unused input keeps the collections consistent. */
  lemma AddKeepsConsistent(records: seq<Record>, used: set<string>, counts: map<Intent, nat>,
                           cmd: string, outs: seq<Intent>)
    requires Consistent(records, used, counts) && cmd !in used
    ensures Consistent(records + [Record(cmd, outs)], used + {cmd}, Bump(counts, outs))
  {
    var records' := records + [Record(cmd, outs)];
    assert records'[..|records'| - 1] == records;
    forall k ensures CountOf(Bump(counts, outs), k) == Tally(records', k) {
      BumpCounts(counts, outs, k);
    }
    assert Inputs(records') == Inputs(records) + {cmd} by {
      forall x | x in Inputs(records') ensures x in Inputs(records) + {cmd} {
        var i :| 0 <= i < |records'| && records'[i].input == x;
        if i < |records| {
          assert records'[i] == records[i];
        }
      }
      forall x | x in Inputs(records) ensures x in Inputs(records') {
        var i :| 0 <= i < |records| && records[i].input == x;
        assert records'[i] == records[i];
      }
      assert records'[|records|].input == cmd;
    }
    forall i, j | 0 <= i < j < |records'| ensures records'[i].input != records'[j].input {
      if j == |records| {
        assert records'[i] == records[i];
        assert records[i].input in Inputs(records);
      }
    }
  }

  /** Distinct inputs have as many elements as records: `len(dataset) == len(used_inputs)`. */
  lemma {:induction false} DistinctInputsCount(records: seq<Record>)
    requires DistinctInputs(records)
    ensures |Inputs(records)| == |records|
    decreases |records|
  {
    if records != [] {
      var front := records[..|records| - 1];
      var last := records[|records| - 1];
      assert DistinctInputs(front) by {
        forall i, j | 0 <= i < j < |front| ensures front[i].input != front[j].input {
          assert front[i] == records[i] && front[j] == records[j];
        }
      }
      DistinctInputsCount(front);
      assert Inputs(records) == Inputs(front) + {last.input} by {
        forall x | x in Inputs(records) ensures x in Inputs(front) + {last.input} {
          var i :| 0 <= i < |records| && records[i].input == x;
          if i < |front| {
            assert front[i] == records[i];
          }
        }
        forall x | x in Inputs(front) ensures x in Inputs(records) {
          var i :| 0 <= i < |front| && front[i].input == x;
          assert records[i] == front[i];
        }
      }
      assert last.input !in Inputs(front) by {
        forall i | 0 <= i < |front| ensures front[i].input != last.input {
          assert front[i] == records[i];
        }
      }
    }
  }

  // ---------------------------------------------------------------------------
  // The state of the script.

  /** `random.choice`, driven by the oracle. */
  class Rng {
    const choices: nat -> nat
    var drawn: nat

    constructor(choices: nat -> nat)
      ensures this.choices == choices && drawn == 0
    {
      this.choices := choices;
      drawn := 0;
    }

    method Choice<T>(options: seq<T>) returns (x: T)
      requires options != []
      modifies this
      ensures drawn == old(drawn) + 1 && x == Pick(choices, old(drawn), options)
    {
      x := options[choices(drawn) % |options|];
      drawn := drawn + 1;
    }
  }

  /** The module-level `dataset`, `used_inputs` and `counts`. */
  class Corpus {
    var records: seq<Record>
    var usedInputs: set<string>
    var counts: map<Intent, nat>

    ghost predicate Valid()
      reads this
    {
      Consistent(records, usedInputs, counts)
    }

    constructor()
      ensures Valid() && records == [] && usedInputs == {} && counts == map[]
    {
      records := [];
      usedInputs := {};
      counts := map[];
    }

    /**
     * `add_to_dataset(cmd, outputs)`: an unseen input is recorded, marked as used and
     * counted once per output pair; a seen one changes nothing.
     */
    method AddToDataset(cmd: string, outputs: seq<Intent>) returns (added: bool)
      requires Valid()
      modifies this
      ensures Valid()
      ensures added <==> cmd !in old(usedInputs)
      ensures added ==> records == old(records) + [Record(cmd, outputs)]
                        && usedInputs == old(usedInputs) + {cmd} && counts == Bump(old(counts), outputs)
      ensures !added ==> records == old(records) && usedInputs == old(usedInputs) && counts == old(counts)
    {
      if cmd in usedInputs {
        return false;
      }
      AddKeepsConsistent(records, usedInputs, counts, cmd, outputs);
      usedInputs := usedInputs + {cmd};
      records := records + [Record(cmd, outputs)];
      for i := 0 to |outputs|
        invariant Bump(old(counts), outputs) == Bump(counts, outputs[i..])
        invariant records == old(records) + [Record(cmd, outputs)] && usedInputs == old(usedInputs) + {cmd}
      {
        assert outputs[i..][1..] == outputs[i + 1..];
        counts := Inc(counts, outputs[i]);
      }
      assert outputs[|outputs|..] == [];
      return true;
    }
  }

  /** What `generate_command` produces is a well-formed command for its pair. */
  lemma GeneratedWellFormed(choices: nat -> nat, k: nat)
    ensures WellFormed(Generated(choices, k))
    ensures Generated(choices, k).intent.0 in SceneItems && Generated(choices, k).intent.1 in SceneLocations
    ensures IsCommand(Text(Generated(choices, k)), Generated(choices, k).intent)
  {
    SceneKeys();
  }

  /** `generate_command()`: six draws, and the text with its (item, location) pair. */
  method GenerateCommand(rng: Rng) returns (cmd: string, intent: Intent)
    modifies rng
    ensures rng.drawn == old(rng.drawn) + 6
    ensures cmd == Text(Generated(rng.choices, old(rng.drawn))) && intent == Generated(rng.choices, old(rng.drawn)).intent
    ensures IsCommand(cmd, intent)
  {
    ghost var g := Generated(rng.choices, rng.drawn);
    SceneKeys();
    SynonymsGiven();
    var item := rng.Choice(SceneItems);
    var location := rng.Choice(SceneLocations);
    assert (item, location) == g.intent;
    var verb := rng.Choice(Verbs);
    var itemName := rng.Choice(ItemSynonyms[item]);
    var adverb := rng.Choice(Adverbs);
    var locationName := rng.Choice(LocationSynonyms[location]);
    var sub := Sub(verb, itemName, adverb, locationName, (item, location));
    assert sub == g;
    GeneratedWellFormed(rng.choices, old(rng.drawn));
    cmd := Text(sub);
    intent := sub.intent;
    assert WellFormed(sub) && sub.intent == intent && Text(sub) == cmd;
  }

  // ---------------------------------------------------------------------------
  // The three generation loops.

  /**
   * The records after `before` all have `n` output pairs, pairwise distinct, and an
   * input made of `n` commands for those pairs, in order.
   */
  ghost predicate AddedRecords(before: seq<Record>, after: seq<Record>, n: nat)
  {
    && before <= after
    && forall k :: |before| <= k < |after| ==>
         |after[k].output| == n && DistinctIntents(after[k].output) && Composed(after[k])
  }

  lemma WithOutputsAppend(records: seq<Record>, r: Record, n: nat)
    ensures WithOutputs(records + [r], n) == WithOutputs(records, n) + (if |r.output| == n then 1 else 0)
  {
    assert (records + [r])[..|records|] == records;
  }

  /** One more record for the loop that adds records with `n` pairs. */
  lemma AddedStep(before: seq<Record>, records: seq<Record>, r: Record, n: nat)
    requires AddedRecords(before, records, n)
    requires |r.output| == n && DistinctIntents(r.output) && Composed(r)
    ensures AddedRecords(before, records + [r], n)
    ensures WithOutputs(records + [r], n) == WithOutputs(records, n) + 1
  {
    WithOutputsAppend(records, r, n);
  }

  /** A two-part record: its pairs differ and its input is the two commands joined. */
  lemma DoubleRecord(cmd1: string, out1: Intent, connector: string, cmd2: string, out2: Intent)
    requires IsCommand(cmd1, out1) && IsCommand(cmd2, out2) && connector in Connectors && out1 != out2
    ensures var r := Record(Joined(cmd1, connector, cmd2), [out1, out2]);
            |r.output| == 2 && DistinctIntents(r.output) && Composed(r)
  {
  }

  /** A three-part record: its pairs differ and its input is the three commands joined. */
  lemma TripleRecord(cmd1: string, out1: Intent, n1: string, cmd2: string, out2: Intent,
                     n2: string, cmd3: string, out3: Intent)
    requires IsCommand(cmd1, out1) && IsCommand(cmd2, out2) && IsCommand(cmd3, out3)
    requires n1 in Connectors && n2 in Connectors
    requires out1 != out2 && out1 != out3 && out2 != out3
    ensures var r := Record(Joined(cmd1, n1, Joined(cmd2, n2, cmd3)), [out1, out2, out3]);
            |r.output| == 3 && DistinctIntents(r.output) && Composed(r)
  {
  }

  /** Single commands (60%): `while` fewer than `single_samples` one-pair records. */
  method GenerateSingles(corpus: Corpus, rng: Rng, budget: nat) returns (left: nat)
    requires corpus.Valid()
    modifies corpus, rng
    ensures corpus.Valid() && left <= budget
    ensures AddedRecords(old(corpus.records), corpus.records, 1)
    ensures left > 0 ==> WithOutputs(corpus.records, 1) >= SingleSamples
    ensures WithOutputs(old(corpus.records), 1) <= SingleSamples ==> WithOutputs(corpus.records, 1) <= SingleSamples
  {
    left := budget;
    while WithOutputs(corpus.records, 1) < SingleSamples && left > 0
      invariant corpus.Valid() && left <= budget
      invariant AddedRecords(old(corpus.records), corpus.records, 1)
      invariant WithOutputs(old(corpus.records), 1) <= SingleSamples ==> WithOutputs(corpus.records, 1) <= SingleSamples
      decreases left
    {
      left := left - 1;
      var cmd, output := GenerateCommand(rng);
      ghost var records := corpus.records;
      var added := corpus.AddToDataset(cmd, [output]);
      if added {
        AddedStep(old(corpus.records), records, Record(cmd, [output]), 1);
      }
    }
  }

  /**
   * Two commands, the second drawn again while it has the first's pair, joined by a
   * random connector; `None` when the draws run out inside the rejection loop.
   */
  method DrawDouble(rng: Rng, budget: nat) returns (record: Option<Record>, left: nat)
    modifies rng
    ensures left <= budget && (record.None? ==> left == 0)
    ensures record.Some? ==>
              |record.value.output| == 2 && DistinctIntents(record.value.output) && Composed(record.value)
  {
    left := budget;
    var cmd1, out1 := GenerateCommand(rng);
    var cmd2, out2 := GenerateCommand(rng);
    while out2 == out1 && left > 0
      invariant IsCommand(cmd2, out2) && left <= budget
      decreases left
    {
      left := left - 1;
      cmd2, out2 := GenerateCommand(rng);
    }
    if out2 == out1 {
      return None, left;
    }
    var connector := rng.Choice(Connectors);
    DoubleRecord(cmd1, out1, connector, cmd2, out2);
    record := Some(Record(Joined(cmd1, connector, cmd2), [out1, out2]));
  }

  /**
   * Three commands, the second and third drawn again while any two pairs coincide,
   * joined by two random connectors; `None` when the draws run out.
   */
  method DrawTriple(rng: Rng, budget: nat) returns (record: Option<Record>, left: nat)
    modifies rng
    ensures left <= budget && (record.None? ==> left == 0)
    ensures record.Some? ==>
              |record.value.output| == 3 && DistinctIntents(record.value.output) && Composed(record.value)
  {
    left := budget;
    var cmd1, out1 := GenerateCommand(rng);
    var cmd2, out2 := GenerateCommand(rng);
    var cmd3, out3 := GenerateCommand(rng);
    while (out2 == out1 || out3 == out1 || out3 == out2) && left > 0
      invariant IsCommand(cmd2, out2) && IsCommand(cmd3, out3) && left <= budget
      decreases left
    {
      left := left - 1;
      cmd2, out2 := GenerateCommand(rng);
      cmd3, out3 := GenerateCommand(rng);
    }
    if out2 == out1 || out3 == out1 || out3 == out2 {
      return None, left;
    }
    var connector1 := rng.Choice(Connectors);
    var connector2 := rng.Choice(Connectors);
    TripleRecord(cmd1, out1, connector1, cmd2, out2, connector2, cmd3, out3);
    record := Some(Record(Joined(cmd1, connector1, Joined(cmd2, connector2, cmd3)), [out1, out2, out3]));
  }

  /** Double commands (30%): `while` fewer than `double_samples` two-pair records. */
  method GenerateDoubles(corpus: Corpus, rng: Rng, budget: nat) returns (left: nat)
    requires corpus.Valid()
    modifies corpus, rng
    ensures corpus.Valid() && left <= budget
    ensures AddedRecords(old(corpus.records), corpus.records, 2)
    ensures left > 0 ==> WithOutputs(corpus.records, 2) >= DoubleSamples
    ensures WithOutputs(old(corpus.records), 2) <= DoubleSamples ==> WithOutputs(corpus.records, 2) <= DoubleSamples
  {
    left := budget;
    while WithOutputs(corpus.records, 2) < DoubleSamples && left > 0
      invariant corpus.Valid() && left <= budget
      invariant AddedRecords(old(corpus.records), corpus.records, 2)
      invariant WithOutputs(old(corpus.records), 2) <= DoubleSamples ==> WithOutputs(corpus.records, 2) <= DoubleSamples
      decreases left
    {
      var record;
      record, left := DrawDouble(rng, left - 1);
      if record.None? {
        break;
      }
      ghost var records := corpus.records;
      var added := corpus.AddToDataset(record.value.input, record.value.output);
      if added {
        AddedStep(old(corpus.records), records, record.value, 2);
      }
    }
  }

  /** Triple commands (10%): `while` fewer than `triple_samples` three-pair records. */
  method GenerateTriples(corpus: Corpus, rng: Rng, budget: nat) returns (left: nat)
    requires corpus.Valid()
    modifies corpus, rng
    ensures corpus.Valid() && left <= budget
    ensures AddedRecords(old(corpus.records), corpus.records, 3)
    ensures left > 0 ==> WithOutputs(corpus.records, 3) >= TripleSamples
    ensures WithOutputs(old(corpus.records), 3) <= TripleSamples ==> WithOutputs(corpus.records, 3) <= TripleSamples
  {
    left := budget;
    while WithOutputs(corpus.records, 3) < TripleSamples && left > 0
      invariant corpus.Valid() && left <= budget
      invariant AddedRecords(old(corpus.records), corpus.records, 3)
      invariant WithOutputs(old(corpus.records), 3) <= TripleSamples ==> WithOutputs(corpus.records, 3) <= TripleSamples
      decreases left
    {
      var record;
      record, left := DrawTriple(rng, left - 1);
      if record.None? {
        break;
      }
      ghost var records := corpus.records;
      var added := corpus.AddToDataset(record.value.input, record.value.output);
      if added {
        AddedStep(old(corpus.records), records, record.value, 3);
      }
    }
  }

  // ---------------------------------------------------------------------------
  // The whole script.

  /** The split: 300 single, 150 double and 50 triple commands, 500 in all. */
  lemma SplitSizes()
    ensures SingleSamples == 300 && DoubleSamples == 150 && TripleSamples == 50
    ensures SingleSamples + DoubleSamples + TripleSamples == SampleNum
  {
  }

  /** A loop adding only `n`-pair records leaves the number of other records alone. */
  lemma {:induction false} OtherSizesUnchanged(before: seq<Record>, after: seq<Record>, n: nat, m: nat)
    requires AddedRecords(before, after, n) && m != n
    ensures WithOutputs(after, m) == WithOutputs(before, m)
    decreases |after|
  {
    if |after| > |before| {
      var front := after[..|after| - 1];
      assert AddedRecords(before, front, n) by {
        assert before <= front;
        forall k | |before| <= k < |front|
          ensures |front[k].output| == n && DistinctIntents(front[k].output) && Composed(front[k])
        {
          assert front[k] == after[k];
        }
      }
      OtherSizesUnchanged(before, front, n, m);
    } else {
      assert after == before;
    }
  }

  /** Every record has one to three pairs, so the three counts add up to the size. */
  lemma {:induction false} SizesAddUp(records: seq<Record>)
    requires forall k :: 0 <= k < |records| ==> 1 <= |records[k].output| <= 3
    ensures |records| == WithOutputs(records, 1) + WithOutputs(records, 2) + WithOutputs(records, 3)
    decreases |records|
  {
    if records != [] {
      var front := records[..|records| - 1];
      assert forall k :: 0 <= k < |front| ==> front[k] == records[k];
      SizesAddUp(front);
    }
  }

  /** Records that stay valid from the empty dataset up: their pairs and inputs. */
  ghost predicate WellMade(records: seq<Record>)
  {
    forall k :: 0 <= k < |records| ==>
      1 <= |records[k].output| <= 3 && DistinctIntents(records[k].output) && Composed(records[k])
  }

  lemma AddedWellMade(before: seq<Record>, after: seq<Record>, n: nat)
    requires WellMade(before) && AddedRecords(before, after, n) && 1 <= n <= 3
    ensures WellMade(after)
  {
    forall k | 0 <= k < |after|
      ensures 1 <= |after[k].output| <= 3 && DistinctIntents(after[k].output) && Composed(after[k])
    {
      if k < |before| {
        assert after[k] == before[k];
      }
    }
  }

  /** The three loops from the empty dataset, each run to its target. */
  lemma CompleteSizes(r1: seq<Record>, r2: seq<Record>, r3: seq<Record>)
    requires AddedRecords([], r1, 1) && AddedRecords(r1, r2, 2) && AddedRecords(r2, r3, 3)
    requires WithOutputs(r1, 1) == SingleSamples && WithOutputs(r2, 2) == DoubleSamples
    requires WithOutputs(r3, 3) == TripleSamples
    ensures WellMade(r3)
    ensures WithOutputs(r3, 1) == SingleSamples && WithOutputs(r3, 2) == DoubleSamples
    ensures |r3| == SampleNum
  {
    AddedWellMade([], r1, 1);
    AddedWellMade(r1, r2, 2);
    AddedWellMade(r2, r3, 3);
    OtherSizesUnchanged(r1, r2, 2, 1);
    OtherSizesUnchanged(r2, r3, 3, 1);
    OtherSizesUnchanged(r2, r3, 3, 2);
    SizesAddUp(r3);
    SplitSizes();
  }

  /** However the draws go, every record the loops add is well made. */
  lemma AddedAllWellMade(r1: seq<Record>, r2: seq<Record>, r3: seq<Record>)
    requires AddedRecords([], r1, 1) && AddedRecords(r1, r2, 2) && AddedRecords(r2, r3, 3)
    ensures WellMade(r3)
  {
    AddedWellMade([], r1, 1);
    AddedWellMade(r1, r2, 2);
    AddedWellMade(r2, r3, 3);
  }

  /** A valid dataset has as many distinct inputs as records. */
  lemma ValidSize(records: seq<Record>, used: set<string>, counts: map<Intent, nat>)
    requires Consistent(records, used, counts)
    ensures |used| == |records|
  {
    DistinctInputsCount(records);
  }

  /**
   * The script from the empty dataset: singles, then doubles, then triples. When the
   * draws do not run out it ends with exactly 300, 150 and 50 records, 500 distinct
   * inputs in all.
   */
  method CreateDataset(rng: Rng, budget: nat) returns (corpus: Corpus, complete: bool)
    modifies rng
    ensures fresh(corpus) && corpus.Valid() && WellMade(corpus.records)
    ensures complete ==>
              && WithOutputs(corpus.records, 1) == SingleSamples
              && WithOutputs(corpus.records, 2) == DoubleSamples
              && WithOutputs(corpus.records, 3) == TripleSamples
              && |corpus.records| == SampleNum
              && |corpus.usedInputs| == SampleNum
  {
    corpus := new Corpus();
    var left := GenerateSingles(corpus, rng, budget);
    ghost var r1 := corpus.records;
    OtherSizesUnchanged([], r1, 1, 2);
    OtherSizesUnchanged([], r1, 1, 3);
    var left2 := GenerateDoubles(corpus, rng, left);
    ghost var r2 := corpus.records;
    OtherSizesUnchanged(r1, r2, 2, 3);
    var left3 := GenerateTriples(corpus, rng, left2);
    ghost var r3 := corpus.records;
    AddedAllWellMade(r1, r2, r3);
    complete := left3 > 0;
    if complete {
      CompleteSizes(r1, r2, r3);
      ValidSize(corpus.records, corpus.usedInputs, corpus.counts);
    }
  }
}
