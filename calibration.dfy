/** get_activation_stats: random calibration sequences, forward hooks on the
    linear layers that record per-channel maxima of |input|, a calibration
    loop over the first quarter of the samples, and the reduction of each
    layer's records to a 95th-percentile vector. */
module Calibration {
  import opened Support
  import opened Tensors
  import opened Network

  /** The largest token id range the calibration data draws from. */
  const MaxVocab: nat := 32000

  /** `min(len(tokenizer), 32000)` */
  function VocabSize(tokenizerLen: nat): (v: nat)
    ensures v <= MaxVocab && v <= tokenizerLen
    ensures v == tokenizerLen || v == MaxVocab
  {
    Min(tokenizerLen, MaxVocab)
  }

  /** `torch.randint(low, high, (size,))` for the `call`-th draw. */
  type RandInt = (nat, int, int, nat) -> seq<int>

  /** What randint promises when `low < high`: `size` ids in `[low, high)`. */
  ghost predicate SoundRandInt(randint: RandInt)
  {
    forall call, low, high, size :: low < high ==>
      |randint(call, low, high, size)| == size &&
      forall j :: 0 <= j < size ==> low <= randint(call, low, high, size)[j] < high
  }

  const RandIntError := "random_ expects 'from' to be less than 'to'"

  /** `torch.randint(1, vocab, ...)` raises when the range is empty. */
  predicate RandIntRaises(tokenizerLen: nat, nSamples: int)
  {
    0 < nSamples && VocabSize(tokenizerLen) <= 1
  }

  /** The calibration data get_activation_stats draws on the default path:
      `n_samples` sequences of `seq_len` ids in `[1, vocab)`. */
  function CalibrationData(tokenizerLen: nat, nSamples: int, seqLen: nat, randint: RandInt): (data: seq<seq<int>>)
    ensures |data| == Max(0, nSamples)
    ensures forall i :: 0 <= i < |data| ==> data[i] == randint(i, 1, VocabSize(tokenizerLen), seqLen)
    ensures SoundRandInt(randint) && !RandIntRaises(tokenizerLen, nSamples) ==> forall i :: 0 <= i < |data| ==>
      |data[i]| == seqLen && forall j :: 0 <= j < seqLen ==> 1 <= data[i][j] < VocabSize(tokenizerLen)
  {
    seq(Max(0, nSamples), i requires 0 <= i => randint(i, 1, VocabSize(tokenizerLen), seqLen))
  }

  /** The generation loop: `torch.randint(1, vocab_size, (seq_len,))` per
      sample, raising on the first draw when the range is empty. */
  method GenerateCalibrationData(tokenizerLen: nat, nSamples: int, seqLen: nat, randint: RandInt)
    returns (r: Result<seq<seq<int>>, string>)
    ensures r.Err? <==> RandIntRaises(tokenizerLen, nSamples)
    ensures r.Err? ==> r.error == RandIntError
    ensures r.Ok? ==> r.value == CalibrationData(tokenizerLen, nSamples, seqLen, randint)
  {
    var vocab := VocabSize(tokenizerLen);
    var data: seq<seq<int>> := [];
    var i := 0;
    while i < nSamples
      invariant 0 <= i <= Max(0, nSamples) && |data| == i
      invariant 0 < i ==> 1 < vocab
      invariant forall k :: 0 <= k < i ==> data[k] == randint(k, 1, vocab, seqLen)
    {
      if vocab <= 1 {
        return Err(RandIntError);
      }
      data := data + [randint(i, 1, vocab, seqLen)];
      i := i + 1;
    }
    return Ok(data);
  }

  /** One invocation of a module during a forward pass, with the positional
      inputs its forward hook receives. */
  datatype Call = Call(layer: string, input: seq<Tensor>)

  /** A forward pass on one token sequence: the module calls made, in order,
      until the pass returns or raises. */
  type Forward = seq<int> -> seq<Call>

  /** What the hook does with one call's input. */
  datatype HookOutcome = Skipped | Recorded(stat: Vec) | Raised

  /** The hook body for one input: only a non-empty input whose first tensor
      is 3-D is considered; its per-channel maximum of |x| over all
      batch x seq rows is recorded. `view(-1, 0)` and `max(dim=0)` over no
      rows raise. */
  function ObserveInput(input: seq<Tensor>): (o: HookOutcome)
    ensures o.Skipped? <==> |input| == 0 || |input[0].shape| != 3
    ensures o.Raised? <==> |input| > 0 && |input[0].shape| == 3 && (|input[0].rows| == 0 || input[0].shape[2] == 0)
    ensures o.Recorded? ==> 0 < |o.stat| == input[0].shape[2]
    ensures o.Recorded? ==> forall r, c :: 0 <= r < |input[0].rows| && 0 <= c < |o.stat| ==>
      Abs(input[0].rows[r][c]) <= o.stat[c]
    ensures o.Recorded? ==> forall c :: 0 <= c < |o.stat| ==>
      o.stat[c] == Abs(input[0].rows[ArgMaxAbs(input[0].rows, c)][c])
  {
    if |input| == 0 || |input[0].shape| != 3 then Skipped
    else
      var x := input[0];
      if |x.rows| == 0 || x.shape[2] == 0 then Raised
      else
        assert x.shape[..2] == [x.shape[0], x.shape[1]];
        Recorded(ChannelMaxAbs(x.rows, x.shape[2]))
  }

  /** `activation_scales.setdefault(name, []).append(stat)`. */
  function AppendRecord(d: Dict<seq<Vec>>, name: string, stat: Vec): (r: Dict<seq<Vec>>)
    ensures r.vals == d.vals[name := if name in d.vals then d.vals[name] + [stat] else [stat]]
    ensures r.keys == if name in d.vals then d.keys else d.keys + [name]
  {
    Put(d, name, if name in d.vals then d.vals[name] + [stat] else [stat])
  }

  datatype PassResult = PassResult(records: Dict<seq<Vec>>, raised: bool)

  /** The records after the hooks see one forward pass: calls of hooked
      modules are observed in order, and the first raising hook ends the pass. */
  function RunCalls(d: Dict<seq<Vec>>, hooked: set<string>, calls: seq<Call>): PassResult
    decreases |calls|
  {
    if calls == [] then PassResult(d, false)
    else if calls[0].layer !in hooked then RunCalls(d, hooked, calls[1..])
    else match ObserveInput(calls[0].input)
      case Skipped => RunCalls(d, hooked, calls[1..])
      case Raised => PassResult(d, true)
      case Recorded(stat) => RunCalls(AppendRecord(d, calls[0].layer, stat), hooked, calls[1..])
  }

  /** The records after the calibration loop over `samples`: a sample whose
      pass raised keeps what its hooks recorded before the raise, and the
      loop goes on with the next sample. */
  function Calibrate(d: Dict<seq<Vec>>, hooked: set<string>, forward: Forward, samples: seq<seq<int>>): Dict<seq<Vec>>
  {
    if samples == [] then d
    else
      var n := |samples| - 1;
      RunCalls(Calibrate(d, hooked, forward, samples[..n]), hooked, forward(samples[n])).records
  }

  /** `records` extends `d`: every key of `d` keeps its place and its list
      is a prefix of the new one. */
  ghost predicate Extends(records: Dict<seq<Vec>>, d: Dict<seq<Vec>>)
  {
    && d.keys <= records.keys
    && forall name :: name in d.vals ==> name in records.vals && d.vals[name] <= records.vals[name]
  }

  /** Every record list is non-empty, every recorded vector has at least one
      channel, and only hooked modules have records. */
  ghost predicate WellRecorded(d: Dict<seq<Vec>>, hooked: set<string>)
  {
    forall name :: name in d.vals ==>
      name in hooked && |d.vals[name]| > 0 && forall i :: 0 <= i < |d.vals[name]| ==> |d.vals[name][i]| > 0
  }

  lemma ExtendsTransitive(a: Dict<seq<Vec>>, b: Dict<seq<Vec>>, c: Dict<seq<Vec>>)
    requires Extends(b, a) && Extends(c, b)
    ensures Extends(c, a)
  {
    assert a.keys <= b.keys <= c.keys;
    forall name | name in a.vals
      ensures name in c.vals && a.vals[name] <= c.vals[name]
    {
      assert a.vals[name] <= b.vals[name] <= c.vals[name];
    }
  }

  /** One recorded observation appends to its module's list and touches
      nothing else. */
  lemma AppendExtends(d: Dict<seq<Vec>>, hooked: set<string>, name: string, stat: Vec)
    ensures Extends(AppendRecord(d, name, stat), d)
    ensures WellRecorded(d, hooked) && name in hooked && |stat| > 0 ==> WellRecorded(AppendRecord(d, name, stat), hooked)
  {
    var r := AppendRecord(d, name, stat);
    forall x | x in d.vals
      ensures x in r.vals && d.vals[x] <= r.vals[x]
    {
      if x == name {
        assert r.vals[x] == d.vals[x] + [stat];
      }
    }
  }

  /** Hooks only append: earlier records are never changed or reordered, and
      what they hold stays well formed. */
  lemma {:induction false} RunCallsAppends(d: Dict<seq<Vec>>, hooked: set<string>, calls: seq<Call>)
    ensures Extends(RunCalls(d, hooked, calls).records, d)
    ensures WellRecorded(d, hooked) ==> WellRecorded(RunCalls(d, hooked, calls).records, hooked)
    decreases |calls|
  {
    if calls == [] || (calls[0].layer in hooked && ObserveInput(calls[0].input).Raised?) {
      assert RunCalls(d, hooked, calls).records == d;
    } else if calls[0].layer in hooked && ObserveInput(calls[0].input).Recorded? {
      var d' := AppendRecord(d, calls[0].layer, ObserveInput(calls[0].input).stat);
      assert RunCalls(d, hooked, calls) == RunCalls(d', hooked, calls[1..]);
      AppendExtends(d, hooked, calls[0].layer, ObserveInput(calls[0].input).stat);
      RunCallsAppends(d', hooked, calls[1..]);
      ExtendsTransitive(d, d', RunCalls(d', hooked, calls[1..]).records);
    } else {
      assert RunCalls(d, hooked, calls) == RunCalls(d, hooked, calls[1..]);
      RunCallsAppends(d, hooked, calls[1..]);
    }
  }

  lemma {:induction false} CalibrateAppends(d: Dict<seq<Vec>>, hooked: set<string>, forward: Forward, samples: seq<seq<int>>)
    ensures Extends(Calibrate(d, hooked, forward, samples), d)
    ensures WellRecorded(d, hooked) ==> WellRecorded(Calibrate(d, hooked, forward, samples), hooked)
  {
    if samples != [] {
      var n := |samples| - 1;
      var prev := Calibrate(d, hooked, forward, samples[..n]);
      CalibrateAppends(d, hooked, forward, samples[..n]);
      RunCallsAppends(prev, hooked, forward(samples[n]));
      ExtendsTransitive(d, prev, RunCalls(prev, hooked, forward(samples[n])).records);
    }
  }

  /** A raising hook ends its pass: the calls after it have no effect. */
  lemma {:induction false} RaiseEndsPass(d: Dict<seq<Vec>>, hooked: set<string>, calls: seq<Call>, j: nat)
    requires j < |calls| && calls[j].layer in hooked && ObserveInput(calls[j].input).Raised?
    ensures RunCalls(d, hooked, calls).raised
    ensures RunCalls(d, hooked, calls).records == RunCalls(d, hooked, calls[..j]).records ||
      exists i :: 0 <= i < j && calls[i].layer in hooked && ObserveInput(calls[i].input).Raised?
    decreases j
  {
    if j > 0 {
      assert calls[1..][j - 1] == calls[j];
      assert calls[..j][1..] == calls[1..][..j - 1];
      if calls[0].layer in hooked && ObserveInput(calls[0].input).Raised? {
      } else if calls[0].layer in hooked && ObserveInput(calls[0].input).Recorded? {
        RaiseEndsPass(AppendRecord(d, calls[0].layer, ObserveInput(calls[0].input).stat), hooked, calls[1..], j - 1);
        if exists i :: 0 <= i < j - 1 && calls[1..][i].layer in hooked && ObserveInput(calls[1..][i].input).Raised? {
          var i :| 0 <= i < j - 1 && calls[1..][i].layer in hooked && ObserveInput(calls[1..][i].input).Raised?;
          assert calls[i + 1] == calls[1..][i];
        }
      } else {
        RaiseEndsPass(d, hooked, calls[1..], j - 1);
        if exists i :: 0 <= i < j - 1 && calls[1..][i].layer in hooked && ObserveInput(calls[1..][i].input).Raised? {
          var i :| 0 <= i < j - 1 && calls[1..][i].layer in hooked && ObserveInput(calls[1..][i].input).Raised?;
          assert calls[i + 1] == calls[1..][i];
        }
      }
    }
  }

  /** Each module's recorded vectors have the width `width` gives it. */
  ghost predicate Widths(d: Dict<seq<Vec>>, width: map<string, nat>)
  {
    forall name :: name in d.vals ==>
      name in width && forall i :: 0 <= i < |d.vals[name]| ==> |d.vals[name][i]| == width[name]
  }

  /** Every hooked call whose first input is 3-D has as many channels as
      `width` gives its module. */
  ghost predicate WellShaped(calls: seq<Call>, hooked: set<string>, width: map<string, nat>)
  {
    forall j :: 0 <= j < |calls| && calls[j].layer in hooked && |calls[j].input| > 0 && |calls[j].input[0].shape| == 3 ==>
      calls[j].layer in width && calls[j].input[0].shape[2] == width[calls[j].layer]
  }

  lemma {:induction false} RunCallsWidths(d: Dict<seq<Vec>>, hooked: set<string>, calls: seq<Call>, width: map<string, nat>)
    requires Widths(d, width) && WellShaped(calls, hooked, width)
    ensures Widths(RunCalls(d, hooked, calls).records, width)
    decreases |calls|
  {
    if calls != [] {
      assert WellShaped(calls[1..], hooked, width) by {
        forall j | 0 <= j < |calls| - 1 ensures calls[1..][j] == calls[j + 1] {}
      }
      if calls[0].layer in hooked && ObserveInput(calls[0].input).Recorded? {
        RunCallsWidths(AppendRecord(d, calls[0].layer, ObserveInput(calls[0].input).stat), hooked, calls[1..], width);
      } else if !(calls[0].layer in hooked && ObserveInput(calls[0].input).Raised?) {
        RunCallsWidths(d, hooked, calls[1..], width);
      }
    }
  }

  /** When every pass is well shaped, every record of a module has that
      module's width. */
  lemma {:induction false} CalibrateWidths(d: Dict<seq<Vec>>, hooked: set<string>, forward: Forward, samples: seq<seq<int>>,
                                           width: map<string, nat>)
    requires Widths(d, width)
    requires forall i :: 0 <= i < |samples| ==> WellShaped(forward(samples[i]), hooked, width)
    ensures Widths(Calibrate(d, hooked, forward, samples), width)
  {
    if samples != [] {
      var n := |samples| - 1;
      CalibrateWidths(d, hooked, forward, samples[..n], width);
      RunCallsWidths(Calibrate(d, hooked, forward, samples[..n]), hooked, forward(samples[n]), width);
    }
  }

  /** The modules that get a hook: linear layers whose name does not
      contain "lm_head", in traversal order. */
  predicate Eligible(m: Module)
  {
    m.Linear? && !Contains(m.name, "lm_head")
  }

  function EligibleNames(modules: seq<Module>): seq<string>
  {
    if modules == [] then []
    else
      var n := |modules| - 1;
      EligibleNames(modules[..n]) + (if Eligible(modules[n]) then [modules[n].name] else [])
  }

  /** A name is listed exactly when some eligible module carries it. */
  lemma {:induction false} EligibleNamesExactly(modules: seq<Module>)
    ensures forall x :: x in EligibleNames(modules) <==>
      exists k :: 0 <= k < |modules| && Eligible(modules[k]) && modules[k].name == x
  {
    if modules != [] {
      var n := |modules| - 1;
      EligibleNamesExactly(modules[..n]);
      assert forall k :: 0 <= k < n ==> modules[..n][k] == modules[k];
    }
  }

  /** The modules that carry a hook once registration is done. */
  function HookedNames(modules: seq<Module>): set<string>
  {
    set x | x in EligibleNames(modules)
  }

  /** `column c` of a list of vectors: one entry per vector. */
  function Column(list: seq<Vec>, c: nat): (col: Vec)
    requires 0 < |list| && HasWidth(list, |list[0]|) && c < |list[0]|
    ensures |col| == |list|
  {
    seq(|list|, j requires 0 <= j < |list| => list[j][c])
  }

  /** `torch.quantile(torch.stack(list), 0.95, dim=0)`, with the quantile
      of one column left as the parameter `pct`: one entry per channel. */
  function Percentile95(list: seq<Vec>, pct: Vec -> real): (v: Vec)
    requires 0 < |list| && HasWidth(list, |list[0]|)
    ensures |v| == |list[0]|
  {
    seq(|list[0]|, c requires 0 <= c < |list[0]| => pct(Column(list, c)))
  }

  /** How reducing one record list goes. */
  datatype Reduction = Drop | Keep(scale: Vec) | Fail(reason: string)

  /** An empty list is dropped; `torch.stack` raises on vectors of unequal
      width, and `torch.quantile` on a stack with no elements (width 0). */
  function ReduceList(list: seq<Vec>, pct: Vec -> real): (r: Reduction)
    ensures r.Drop? <==> list == []
    ensures r.Keep? <==> list != [] && HasWidth(list, |list[0]|) && |list[0]| > 0
    ensures r.Keep? ==> |r.scale| == |list[0]|
  {
    if list == [] then Drop
    else if !HasWidth(list, |list[0]|) then Fail("stack expects each tensor to be equal size")
    else if |list[0]| == 0 then Fail("quantile() input tensor must be non-empty")
    else Keep(Percentile95(list, pct))
  }

  /** How each record list reduces, in record order. */
  function Reductions(d: Dict<seq<Vec>>, pct: Vec -> real): (steps: seq<Reduction>)
    ensures |steps| == |d.keys|
    ensures forall i :: 0 <= i < |d.keys| ==> steps[i] == ReduceList(d.vals[d.keys[i]], pct)
  {
    seq(|d.keys|, i requires 0 <= i < |d.keys| => ReduceList(d.vals[d.keys[i]], pct))
  }

  /** One item of the reduction loop: a kept reduction is stored under its
      key, a dropped one skipped, and a failure raises; once raised, the
      loop has ended. */
  function Absorb(prev: Result<Dict<Vec>, string>, key: string, step: Reduction): Result<Dict<Vec>, string>
  {
    if prev.Err? then prev
    else match step
      case Drop => prev
      case Fail(reason) => Err(reason)
      case Keep(scale) => Ok(Put(prev.value, key, scale))
  }

  /** `final_scales` after the first `n` items. */
  function Collect(keys: seq<string>, steps: seq<Reduction>, n: nat): Result<Dict<Vec>, string>
    requires n <= |keys| && n <= |steps|
  {
    if n == 0 then Ok(EmptyDict())
    else Absorb(Collect(keys, steps, n - 1), keys[n - 1], steps[n - 1])
  }

  /** The keys among the first `n` whose reduction is kept, in order. */
  function KeptKeys(keys: seq<string>, steps: seq<Reduction>, n: nat): (ks: seq<string>)
    requires n <= |keys| && n <= |steps|
    ensures |ks| <= n
  {
    if n == 0 then []
    else KeptKeys(keys, steps, n - 1) + (if steps[n - 1].Keep? then [keys[n - 1]] else [])
  }

  /** `final_scales`: each module with a non-empty record list, in record
      order, mapped to the 95th percentile of its records. */
  function ReduceRecords(d: Dict<seq<Vec>>, pct: Vec -> real): Result<Dict<Vec>, string>
  {
    Collect(d.keys, Reductions(d, pct), |d.keys|)
  }

  /** The first failure decides the error: later items do not change it. */
  lemma {:induction false} CollectErrSticks(keys: seq<string>, steps: seq<Reduction>, i: nat, n: nat)
    requires i <= n <= |keys| && n <= |steps| && Collect(keys, steps, i).Err?
    ensures Collect(keys, steps, n) == Collect(keys, steps, i)
    decreases n
  {
    if n > i {
      CollectErrSticks(keys, steps, i, n - 1);
    }
  }

  /** The reduction fails exactly when some list fails. */
  lemma {:induction false} CollectFailsIff(keys: seq<string>, steps: seq<Reduction>, n: nat)
    requires n <= |keys| && n <= |steps|
    ensures Collect(keys, steps, n).Ok? <==> forall i :: 0 <= i < n ==> !steps[i].Fail?
  {
    if n > 0 {
      CollectFailsIff(keys, steps, n - 1);
    }
  }

  /** A later key is not among the first `n` kept ones. */
  lemma {:induction false} NotYetKept(keys: seq<string>, steps: seq<Reduction>, n: nat, m: nat)
    requires n <= m < |keys| && m < |steps|
    requires forall i, j :: 0 <= i < j < |keys| ==> keys[i] != keys[j]
    ensures keys[m] !in KeptKeys(keys, steps, n)
  {
    if n > 0 {
      NotYetKept(keys, steps, n - 1, m);
    }
  }

  /** On success exactly the kept keys are present, in order. */
  lemma {:induction false} CollectKeyOrder(keys: seq<string>, steps: seq<Reduction>, n: nat)
    requires n <= |keys| && n <= |steps| && Collect(keys, steps, n).Ok?
    requires forall i, j :: 0 <= i < j < |keys| ==> keys[i] != keys[j]
    ensures Collect(keys, steps, n).value.keys == KeptKeys(keys, steps, n)
  {
    if n > 0 {
      var prev := Collect(keys, steps, n - 1);
      CollectKeyOrder(keys, steps, n - 1);
      if steps[n - 1].Keep? {
        NotYetKept(keys, steps, n - 1, n - 1);
        assert keys[n - 1] !in prev.value.vals;
      }
    }
  }

  /** On success each kept key maps to its own reduction. */
  lemma {:induction false} CollectValues(keys: seq<string>, steps: seq<Reduction>, n: nat)
    requires n <= |keys| && n <= |steps| && Collect(keys, steps, n).Ok?
    requires forall i, j :: 0 <= i < j < |keys| ==> keys[i] != keys[j]
    ensures var m := Collect(keys, steps, n).value.vals;
      forall i :: 0 <= i < n && steps[i].Keep? ==> keys[i] in m && m[keys[i]] == steps[i].scale
  {
    if n > 0 {
      var prev := Collect(keys, steps, n - 1).value.vals;
      CollectValues(keys, steps, n - 1);
      var m := Collect(keys, steps, n).value.vals;
      if steps[n - 1].Keep? {
        assert m == prev[keys[n - 1] := steps[n - 1].scale];
        forall i | 0 <= i < n - 1 && steps[i].Keep?
          ensures keys[i] in m && m[keys[i]] == steps[i].scale
        {
          assert keys[i] != keys[n - 1];
        }
      } else {
        assert m == prev;
      }
    }
  }

  /** With every reduction kept, every key is kept. */
  lemma {:induction false} AllKept(keys: seq<string>, steps: seq<Reduction>, n: nat)
    requires n <= |keys| && n <= |steps|
    requires forall i :: 0 <= i < n ==> steps[i].Keep?
    ensures KeptKeys(keys, steps, n) == keys[..n]
  {
    if n > 0 {
      AllKept(keys, steps, n - 1);
      assert keys[..n] == keys[..n - 1] + [keys[n - 1]];
    }
  }

  /** The body of the reduction loop for the `i`-th record list: skipped
      when empty, otherwise stacked, reduced to its 95th percentile and
      reported. */
  method ReduceItem(d: Dict<seq<Vec>>, pct: Vec -> real, i: nat, scales: Dict<Vec>) returns (next: Result<Dict<Vec>, string>)
    requires i < |d.keys| && Collect(d.keys, Reductions(d, pct), i) == Ok(scales)
    ensures next == Collect(d.keys, Reductions(d, pct), i + 1)
  {
    var list := d.vals[d.keys[i]];
    if list == [] {
      return Ok(scales);
    }
    if !HasWidth(list, |list[0]|) {
      return Err("stack expects each tensor to be equal size");
    }
    var scale := Percentile95(list, pct);
    if |scale| == 0 {
      return Err("quantile() input tensor must be non-empty");
    }
    return Ok(Put(scales, d.keys[i], scale));
  }

  /** The reduction loop over `activation_scales.items()`. */
  method FinalScales(d: Dict<seq<Vec>>, pct: Vec -> real) returns (r: Result<Dict<Vec>, string>)
    ensures r == ReduceRecords(d, pct)
  {
    var scales: Dict<Vec> := EmptyDict();
    var i := 0;
    while i < |d.keys|
      invariant 0 <= i <= |d.keys|
      invariant Collect(d.keys, Reductions(d, pct), i) == Ok(scales)
    {
      var next := ReduceItem(d, pct, i, scales);
      if next.Err? {
        CollectErrSticks(d.keys, Reductions(d, pct), i + 1, |d.keys|);
        return next;
      }
      scales := next.value;
      i := i + 1;
    }
    return Ok(scales);
  }

  /** Every non-empty list of equal, positive widths is kept. */
  lemma WellFormedSteps(d: Dict<seq<Vec>>, hooked: set<string>, width: map<string, nat>, pct: Vec -> real)
    requires WellRecorded(d, hooked) && Widths(d, width)
    ensures forall i :: 0 <= i < |d.keys| ==>
      d.keys[i] in width && Reductions(d, pct)[i].Keep? && |Reductions(d, pct)[i].scale| == width[d.keys[i]]
  {
    forall i | 0 <= i < |d.keys|
      ensures d.keys[i] in width && Reductions(d, pct)[i].Keep? && |Reductions(d, pct)[i].scale| == width[d.keys[i]]
    {
      var list := d.vals[d.keys[i]];
      assert |list| > 0 && |list[0]| == width[d.keys[i]] > 0;
      assert HasWidth(list, |list[0]|);
    }
  }

  /** When every reduction is kept, every key is stored, in order. */
  lemma CollectAll(keys: seq<string>, steps: seq<Reduction>)
    requires |keys| == |steps|
    requires forall i, j :: 0 <= i < j < |keys| ==> keys[i] != keys[j]
    requires forall i :: 0 <= i < |steps| ==> steps[i].Keep?
    ensures Collect(keys, steps, |keys|).Ok?
    ensures Collect(keys, steps, |keys|).value.keys == keys
  {
    CollectFailsIff(keys, steps, |keys|);
    CollectKeyOrder(keys, steps, |keys|);
    AllKept(keys, steps, |keys|);
    assert keys[..|keys|] == keys;
  }

  /** Well-formed records of consistent widths reduce without error, to one
      vector per recorded module, in record order, as wide as that module's
      records. */
  lemma ReduceWellFormed(d: Dict<seq<Vec>>, hooked: set<string>, width: map<string, nat>, pct: Vec -> real)
    requires WellRecorded(d, hooked) && Widths(d, width)
    ensures ReduceRecords(d, pct).Ok?
    ensures ReduceRecords(d, pct).value.keys == d.keys
    ensures forall x :: x in ReduceRecords(d, pct).value.vals ==> x in width && |ReduceRecords(d, pct).value.vals[x]| == width[x]
  {
    var steps := Reductions(d, pct);
    WellFormedSteps(d, hooked, width, pct);
    CollectAll(d.keys, steps);
    CollectValues(d.keys, steps, |d.keys|);
    var r := Collect(d.keys, steps, |d.keys|).value;
    forall x | x in r.vals
      ensures x in width && |r.vals[x]| == width[x]
    {
      assert x in d.keys;
      var i :| 0 <= i < |d.keys| && d.keys[i] == x;
    }
  }

  /** The hook registry of a model under calibration: the records the hooks
      fill, the handles list, and the modules that currently carry a hook. */
  class Calibrator {
    var records: Dict<seq<Vec>>
    var handles: seq<string>
    var installed: set<string>

    constructor ()
      ensures records == EmptyDict() && handles == [] && installed == {}
    {
      records := EmptyDict();
      handles := [];
      installed := {};
    }

    /** `register_forward_hook` on every eligible module, keeping the handles. */
    method RegisterHooks(modules: seq<Module>)
      modifies this
      ensures records == old(records)
      ensures handles == old(handles) + EligibleNames(modules)
      ensures installed == old(installed) + HookedNames(modules)
    {
      var i := 0;
      while i < |modules|
        invariant 0 <= i <= |modules|
        invariant records == old(records)
        invariant handles == old(handles) + EligibleNames(modules[..i])
        invariant installed == old(installed) + HookedNames(modules[..i])
      {
        assert modules[..i + 1][..i] == modules[..i];
        if Eligible(modules[i]) {
          handles := handles + [modules[i].name];
          installed := installed + {modules[i].name};
        }
        i := i + 1;
      }
      assert modules[..i] == modules;
    }

    /** The hook of module `name` on one call. */
    method Hook(name: string, input: seq<Tensor>) returns (raised: bool)
      modifies this
      ensures raised <==> ObserveInput(input).Raised?
      ensures records == if ObserveInput(input).Recorded?
        then AppendRecord(old(records), name, ObserveInput(input).stat) else old(records)
      ensures handles == old(handles) && installed == old(installed)
    {
      raised := false;
      if |input| > 0 {
        var x := input[0];
        if |x.shape| == 3 {
          if |x.rows| == 0 || x.shape[2] == 0 {
            return true;
          }
          var actMax := ChannelMaxAbs(x.rows, x.shape[2]);
          if name !in records.vals {
            records := Put(records, name, []);
          }
          assert [] + [actMax] == [actMax];
          records := Put(records, name, records.vals[name] + [actMax]);
        }
      }
    }

    /** One `model(tokens)` inside the try block: the hooked calls reach
      their hooks in order; a raising hook propagates out of the pass. */
    method RunPass(calls: seq<Call>) returns (raised: bool)
      modifies this
      ensures RunCalls(old(records), installed, calls) == PassResult(records, raised)
      ensures handles == old(handles) && installed == old(installed)
    {
      var j := 0;
      while j < |calls|
        invariant 0 <= j <= |calls|
        invariant RunCalls(records, installed, calls[j..]) == RunCalls(old(records), installed, calls)
        invariant handles == old(handles) && installed == old(installed)
      {
        assert calls[j..][1..] == calls[j + 1..];
        if calls[j].layer in installed {
          raised := Hook(calls[j].layer, calls[j].input);
          if raised {
            return;
          }
        }
        j := j + 1;
      }
      raised := false;
    }

    /** The calibration loop: `calibration_data[:n_samples // 4]`, each sample
      in a try block whose exception is reported and skipped. */
    method RunSamples(forward: Forward, data: seq<seq<int>>, nSamples: int)
      modifies this
      ensures records == Calibrate(old(records), installed, forward, PrefixSlice(data, nSamples / 4))
      ensures handles == old(handles) && installed == old(installed)
    {
      var samples := PrefixSlice(data, nSamples / 4);
      var i := 0;
      while i < |samples|
        invariant 0 <= i <= |samples|
        invariant records == Calibrate(old(records), installed, forward, samples[..i])
        invariant handles == old(handles) && installed == old(installed)
      {
        assert samples[..i + 1][..i] == samples[..i];
        var _ := RunPass(forward(samples[i]));
        i := i + 1;
      }
      assert samples[..i] == samples;
    }

    /** `hook.remove()` for every handle. */
    method RemoveHooks()
      modifies this
      ensures installed == old(installed) - (set x | x in handles)
      ensures records == old(records) && handles == old(handles)
    {
      var i := 0;
      while i < |handles|
        invariant 0 <= i <= |handles|
        invariant installed == old(installed) - (set x | x in handles[..i])
        invariant records == old(records) && handles == old(handles)
      {
        assert handles[..i + 1] == handles[..i] + [handles[i]];
        installed := installed - {handles[i]};
        i := i + 1;
      }
      assert handles[..i] == handles;
    }
  }

  /** What get_activation_stats returns on the default path. */
  function ActivationStats(modules: seq<Module>, tokenizerLen: nat, nSamples: int, seqLen: nat,
                           randint: RandInt, forward: Forward, pct: Vec -> real): Result<Dict<Vec>, string>
  {
    if RandIntRaises(tokenizerLen, nSamples) then Err(RandIntError)
    else
      var samples := PrefixSlice(CalibrationData(tokenizerLen, nSamples, seqLen, randint), nSamples / 4);
      ReduceRecords(Calibrate(EmptyDict(), HookedNames(modules), forward, samples), pct)
  }

  /** get_activation_stats: generate the data, hook the eligible modules,
      run the calibration loop, remove the hooks and reduce the records. */
  method GetActivationStats(modules: seq<Module>, tokenizerLen: nat, nSamples: int, seqLen: nat,
                            randint: RandInt, forward: Forward, pct: Vec -> real)
    returns (r: Result<Dict<Vec>, string>)
    ensures r == ActivationStats(modules, tokenizerLen, nSamples, seqLen, randint, forward, pct)
  {
    var data := GenerateCalibrationData(tokenizerLen, nSamples, seqLen, randint);
    if data.Err? {
      return Err(data.error);
    }
    var c := new Calibrator();
    c.RegisterHooks(modules);
    assert c.installed == HookedNames(modules);
    c.RunSamples(forward, data.value, nSamples);
    c.RemoveHooks();
    assert c.installed == {};
    r := FinalScales(c.records, pct);
  }

  /** Each module's input width under the given modules: in_features for
      each linear layer. */
  ghost predicate InFeatures(modules: seq<Module>, width: map<string, nat>)
  {
    forall k :: 0 <= k < |modules| && modules[k].Linear? ==>
      modules[k].name in width && width[modules[k].name] == modules[k].weight.Length1
  }

  /** The statistics name only eligible modules, and when every calibration
      pass feeds each hooked layer inputs of its in_features width, the
      reduction succeeds and each vector has in_features entries. */
  lemma StatsMatchLayers(modules: seq<Module>, tokenizerLen: nat, nSamples: int, seqLen: nat,
                         randint: RandInt, forward: Forward, pct: Vec -> real, width: map<string, nat>)
    requires !RandIntRaises(tokenizerLen, nSamples)
    requires UniqueNames(modules) && InFeatures(modules, width)
    requires forall s :: WellShaped(forward(s), HookedNames(modules), width)
    ensures var r := ActivationStats(modules, tokenizerLen, nSamples, seqLen, randint, forward, pct);
      r.Ok? &&
      (forall x :: x in r.value.vals ==> exists k :: 0 <= k < |modules| && Eligible(modules[k]) && modules[k].name == x) &&
      (forall k :: 0 <= k < |modules| && modules[k].Linear? && modules[k].name in r.value.vals ==>
         |r.value.vals[modules[k].name]| == modules[k].weight.Length1)
  {
    var hooked := HookedNames(modules);
    var samples := PrefixSlice(CalibrationData(tokenizerLen, nSamples, seqLen, randint), nSamples / 4);
    var d := Calibrate(EmptyDict(), hooked, forward, samples);
    CalibrateAppends(EmptyDict(), hooked, forward, samples);
    CalibrateWidths(EmptyDict(), hooked, forward, samples, width);
    ReduceWellFormed(d, hooked, width, pct);
    EligibleNamesExactly(modules);
  }
}
