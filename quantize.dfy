/**
 * The parts of the INT8 quantisation script that decide something: the
 * calibration data reader handed to ONNX Runtime (a cursor over the
 * samples), the name of the quantised model, the choice of quantisation
 * method, and which models of the models directory get quantised with
 * which input size.
 *
 * Paths are strings of `/`-separated components without a trailing `/`;
 * `Path(a) / b` is `a + "/" + b`.
 */
module Quantize {
  import opened Wrappers
  import opened Text

  /**
   * `YOLOCalibrationDataReader`: hands out the calibration samples one at a
   * time as `{input_name: sample}` until they run out.
   */
  class CalibrationDataReader<T> {
    const calibrationData: seq<T>
    const inputName: string
    var index: nat

    constructor(calibrationData: seq<T>, inputName: string)
      ensures this.calibrationData == calibrationData
      ensures this.inputName == inputName
      ensures index == 0
    {
      this.calibrationData := calibrationData;
      this.inputName := inputName;
      index := 0;
    }

    /**
     * `get_next`: None once the samples are exhausted, with the cursor left
     * where it is; otherwise the sample under the cursor, and the cursor
     * moves one step.
     */
    method GetNext() returns (r: Option<map<string, T>>)
      modifies this
      ensures old(index) >= |calibrationData| ==> r == None && index == old(index)
      ensures old(index) < |calibrationData| ==>
        r == Some(map[inputName := calibrationData[old(index)]]) && index == old(index) + 1
    {
      if index >= |calibrationData| {
        return None;
      }
      r := Some(map[inputName := calibrationData[index]]);
      index := index + 1;
    }

    /** `rewind`: the next `get_next` starts from the first sample again. */
    method Rewind()
      modifies this
      ensures index == 0
    {
      index := 0;
    }
  }

  /** The batches the reader hands out from cursor position `from` on, in order. */
  function Remaining<T>(data: seq<T>, inputName: string, from: nat): (batches: seq<map<string, T>>)
    ensures |batches| == if from <= |data| then |data| - from else 0
    ensures forall k :: 0 <= k < |batches| ==> batches[k] == map[inputName := data[from + k]]
    decreases |data| - from
  {
    if from >= |data| then [] else [map[inputName := data[from]]] + Remaining(data, inputName, from + 1)
  }

  /**
   * How ONNX Runtime's static calibration consumes a reader: `get_next`
   * until it returns None. Every remaining sample comes back in order, the
   * cursor ends past the last one, and the reader then keeps returning None.
   */
  method Drain<T>(reader: CalibrationDataReader<T>) returns (batches: seq<map<string, T>>)
    modifies reader
    ensures batches == Remaining(reader.calibrationData, reader.inputName, old(reader.index))
    ensures reader.index == if old(reader.index) <= |reader.calibrationData| then |reader.calibrationData| else old(reader.index)
  {
    batches := [];
    var next := reader.GetNext();
    while next.Some?
      invariant old(reader.index) <= |reader.calibrationData| ==> old(reader.index) <= reader.index <= |reader.calibrationData|
      invariant next.None? ==> reader.index >= |reader.calibrationData|
      invariant next.None? ==> reader.index == if old(reader.index) <= |reader.calibrationData| then |reader.calibrationData| else old(reader.index)
      invariant next.Some? ==> 0 < reader.index <= |reader.calibrationData| && old(reader.index) < reader.index
      invariant next.Some? ==> next.value == map[reader.inputName := reader.calibrationData[reader.index - 1]]
      invariant next.Some? ==> batches + Remaining(reader.calibrationData, reader.inputName, reader.index - 1)
                               == Remaining(reader.calibrationData, reader.inputName, old(reader.index))
      invariant next.None? ==> batches == Remaining(reader.calibrationData, reader.inputName, old(reader.index))
      decreases |reader.calibrationData| - reader.index, if next.Some? then 1 else 0
    {
      batches := batches + [next.value];
      next := reader.GetNext();
    }
  }

  /** The last component of a path (`Path.name`). */
  function BaseName(path: string): string
  {
    var i := LastIndex(path, '/');
    path[i + 1..]
  }

  /** The name is the part of the path after its last `/`. */
  lemma BaseNameIsLastComponent(path: string)
    ensures '/' !in BaseName(path)
    ensures EndsWith(path, BaseName(path))
  {
  }

  /**
   * `Path.stem`: the name without its last suffix, where a suffix starts at
   * the last dot provided that dot is neither the first nor the last
   * character.
   */
  function Stem(name: string): string
  {
    var i := LastIndex(name, '.');
    if 0 < i < |name| - 1 then name[..i] else name
  }

  /**
   * The stem is the name itself, or the part of it before a dot that is
   * neither its first nor its last character and after which no dot follows.
   */
  lemma StemDropsLastSuffix(name: string)
    ensures Stem(name) <= name
    ensures Stem(name) == name ||
      var stem := Stem(name);
      |stem| > 0 && |stem| + 1 < |name| && name[|stem|] == '.' && '.' !in name[|stem| + 1..]
    ensures forall i :: 0 < i < |name| - 1 && name[i] == '.' && '.' !in name[i + 1..] ==> Stem(name) == name[..i]
  {
    forall i | 0 < i < |name| - 1 && name[i] == '.' && '.' !in name[i + 1..]
      ensures Stem(name) == name[..i]
    {
      forall j | i < j < |name|
        ensures name[j] != '.'
      {
        assert name[i + 1..][j - i - 1] == name[j];
      }
    }
  }

  const QuantizedSuffix: string := "_int8"
  const OnnxExtension: string := ".onnx"

  /** `output_dir / f"{input_model.stem}_int8.onnx"`. */
  function OutputModelPath(outputDir: string, inputModel: string): string
  {
    outputDir + "/" + Stem(BaseName(inputModel)) + QuantizedSuffix + OnnxExtension
  }

  /** `sub` inside a longer string is still inside it. */
  lemma ContainsInConcat(a: string, sub: string, b: string)
    ensures Contains(a + sub + b, sub)
  {
    var s := a + sub + b;
    assert s[|a|..|a| + |sub|] == sub;
    assert OccursAt(s, sub, |a|);
  }

  /**
   * The quantised model is named after the input: its stem is the input's
   * stem with `_int8` appended, it keeps the `.onnx` extension, and so the
   * model selection of a later run skips it.
   */
  lemma OutputModelNaming(outputDir: string, inputModel: string)
    ensures BaseName(OutputModelPath(outputDir, inputModel)) == Stem(BaseName(inputModel)) + QuantizedSuffix + OnnxExtension
    ensures Stem(BaseName(OutputModelPath(outputDir, inputModel))) == Stem(BaseName(inputModel)) + QuantizedSuffix
    ensures EndsWith(BaseName(OutputModelPath(outputDir, inputModel)), OnnxExtension)
    ensures !Quantizable(BaseName(OutputModelPath(outputDir, inputModel)))
  {
    var stem := Stem(BaseName(inputModel));
    var name := stem + QuantizedSuffix + OnnxExtension;
    var path := OutputModelPath(outputDir, inputModel);
    assert path == (outputDir + "/") + name;
    BaseNameIsLastComponent(inputModel);
    assert stem <= BaseName(inputModel);
    assert '/' !in stem;
    assert '/' !in name by {
      forall k | 0 <= k < |name| ensures name[k] != '/' {
        if k < |stem| {
          assert name[k] == stem[k];
        }
      }
    }
    LastIndexAfterSeparator(outputDir + "/", name, '/');
    assert BaseName(path) == name;
    var dot := |stem| + |QuantizedSuffix|;
    assert name[dot] == '.';
    assert name[dot + 1..] == "onnx";
    assert LastIndex(name, '.') == dot;
    assert Stem(name) == stem + QuantizedSuffix;
    ContainsInConcat(stem, QuantizedSuffix, "");
    assert stem + QuantizedSuffix + "" == stem + QuantizedSuffix;
  }

  /** The last `c` of `prefix + rest` is the last one of `prefix` when `rest` has none. */
  lemma LastIndexAfterSeparator(prefix: string, rest: string, c: char)
    requires |prefix| > 0 && prefix[|prefix| - 1] == c
    requires c !in rest
    ensures LastIndex(prefix + rest, c) == |prefix| - 1
    ensures (prefix + rest)[|prefix|..] == rest
  {
    var s := prefix + rest;
    var i := LastIndex(s, c);
    assert s[|prefix| - 1] == c;
  }

  /** The quantisation methods `quantize_model` knows. */
  datatype QuantMethod = Dynamic | Static

  const DynamicName: string := "dynamic"
  const StaticName: string := "static"

  /** The `method` argument: "dynamic", "static", or unknown (an error exit). */
  function ParseMethod(name: string): (m: Option<QuantMethod>)
    ensures m == Some(Dynamic) <==> name == DynamicName
    ensures m == Some(Static) <==> name == StaticName
    ensures m.None? <==> name != DynamicName && name != StaticName
  {
    if name == DynamicName then Some(Dynamic)
    else if name == StaticName then Some(Static)
    else None
  }

  /** `public/models`, relative to the repository root. */
  const ModelsDir: string := "public/models"
  const DefaultInputModel: string := ModelsDir + "/aadhaar_detector.onnx"

  /** What `quantize_model` goes on to do once its checks pass. */
  datatype Job = Job(inputModel: string, outputModel: string, quantMethod: QuantMethod, inputSize: int)

  /** The two `sys.exit(1)` paths of `quantize_model`. */
  datatype QuantizeError = ModelNotFound(path: string) | UnknownMethod(name: string)

  /**
   * `quantize_model` up to the quantisation call: defaults for the input
   * model and output directory, a missing input model checked first, then
   * the method, and the output named after the input.
   */
  function PlanQuantization(inputModel: Option<string>, outputDir: Option<string>, methodName: string,
                            inputSize: int, inputExists: bool): (r: Result<Job, QuantizeError>)
    ensures var input := if inputModel.Some? then inputModel.value else DefaultInputModel;
      && (!inputExists <==> r == Err(ModelNotFound(input)))
      && (inputExists && ParseMethod(methodName).None? <==> r == Err(UnknownMethod(methodName)))
      && (r.Ok? <==> inputExists && ParseMethod(methodName).Some?)
      && (r.Ok? ==>
            && r.value.inputModel == input
            && r.value.outputModel
               == OutputModelPath(if outputDir.Some? then outputDir.value else ModelsDir, input)
            && Some(r.value.quantMethod) == ParseMethod(methodName)
            && r.value.inputSize == inputSize)
  {
    var input := if inputModel.Some? then inputModel.value else DefaultInputModel;
    var dir := if outputDir.Some? then outputDir.value else ModelsDir;
    if !inputExists then Err(ModelNotFound(input))
    else
      match ParseMethod(methodName)
      case None => Err(UnknownMethod(methodName))
      case Some(m) => Ok(Job(input, OutputModelPath(dir, input), m, inputSize))
  }

  /** `models_dir.glob("*.onnx")` filtered by `"_int8" not in m.stem`. */
  predicate Quantizable(name: string)
  {
    EndsWith(name, OnnxExtension) && !Contains(Stem(name), QuantizedSuffix)
  }

  /** The directory entries `quantize_all_models` quantises, in listing order. */
  function SelectModels(listing: seq<string>): (models: seq<string>)
    ensures |models| <= |listing|
  {
    if |listing| == 0 then []
    else (if Quantizable(listing[0]) then [listing[0]] else []) + SelectModels(listing[1..])
  }

  /** Exactly the quantisable entries of the listing are selected. */
  lemma {:induction false} SelectModelsMembers(listing: seq<string>)
    ensures forall m :: m in SelectModels(listing) <==> m in listing && Quantizable(m)
  {
    if |listing| > 0 {
      SelectModelsMembers(listing[1..]);
      assert listing == [listing[0]] + listing[1..];
    }
  }

  /** Selection over a listing split in two is the selection over each part. */
  lemma {:induction false} SelectModelsAppend(a: seq<string>, b: seq<string>)
    ensures SelectModels(a + b) == SelectModels(a) + SelectModels(b)
  {
    if |a| > 0 {
      assert (a + b)[1..] == a[1..] + b;
      SelectModelsAppend(a[1..], b);
    } else {
      assert a + b == b;
    }
  }

  /**
   * Re-running over a directory that now also holds the quantised models
   * selects the same models as before: every output name is skipped.
   */
  lemma {:induction false} SelectionIgnoresOutputs(listing: seq<string>, inputs: seq<string>)
    ensures SelectModels(listing + OutputNames(inputs)) == SelectModels(listing)
  {
    SelectModelsAppend(listing, OutputNames(inputs));
    NoOutputSelected(inputs);
    assert SelectModels(listing) + [] == SelectModels(listing);
  }

  /** The file names of the quantised models of `inputs`. */
  function OutputNames(inputs: seq<string>): (names: seq<string>)
    ensures |names| == |inputs|
    ensures forall k :: 0 <= k < |inputs| ==> names[k] == BaseName(OutputModelPath(ModelsDir, inputs[k]))
  {
    seq(|inputs|, k requires 0 <= k < |inputs| => BaseName(OutputModelPath(ModelsDir, inputs[k])))
  }

  lemma {:induction false} NoOutputSelected(inputs: seq<string>)
    ensures SelectModels(OutputNames(inputs)) == []
  {
    if |inputs| > 0 {
      var names := OutputNames(inputs);
      OutputModelNaming(ModelsDir, inputs[0]);
      assert names[1..] == OutputNames(inputs[1..]);
      NoOutputSelected(inputs[1..]);
    }
  }

  /** `320 if "small" in model_path.stem else 640`. */
  function InputSizeFor(name: string): (size: int)
    ensures size == 320 <==> Contains(Stem(name), "small")
    ensures size == 640 <==> !Contains(Stem(name), "small")
  {
    if Contains(Stem(name), "small") then 320 else 640
  }

  /**
   * `quantize_all_models`: one dynamic quantisation per selected model, in
   * listing order, into the models directory itself, at 320 pixels for the
   * "small" models and 640 otherwise. `listing` is the directory's entries;
   * they exist, so `quantize_model` passes its file check.
   */
  method QuantizeAllModels(listing: seq<string>) returns (jobs: seq<Job>)
    ensures |jobs| == |SelectModels(listing)|
    ensures jobs == ListedJobs(SelectModels(listing))
  {
    jobs := QuantizeModels(SelectModels(listing));
  }

  /** The `for model_path in onnx_models` loop. */
  method QuantizeModels(models: seq<string>) returns (jobs: seq<Job>)
    ensures jobs == ListedJobs(models)
  {
    jobs := [];
    for k := 0 to |models|
      invariant jobs == ListedJobs(models[..k])
    {
      var job := QuantizeListedModel(models[k]);
      assert models[..k + 1][..k] == models[..k];
      jobs := jobs + [job];
    }
    assert models[..|models|] == models;
  }

  /** The jobs of the listed models, in order. */
  function ListedJobs(names: seq<string>): (jobs: seq<Job>)
    ensures |jobs| == |names|
  {
    if |names| == 0 then [] else ListedJobs(names[..|names| - 1]) + [ListedJob(names[|names| - 1])]
  }

  /** The `quantize_model` call for one listed model: dynamic, input size from the name. */
  method QuantizeListedModel(name: string) returns (job: Job)
    ensures job == ListedJob(name)
  {
    var size := InputSizeFor(name);
    PlanForListedModel(name);
    var plan := PlanQuantization(Some(ModelsDir + "/" + name), None, DynamicName, size, true);
    job := plan.value;
  }

  /** The job of a model found in the models directory. */
  function ListedJob(name: string): Job
  {
    var input := ModelsDir + "/" + name;
    Job(input, OutputModelPath(ModelsDir, input), Dynamic, InputSizeFor(name))
  }

  /** A listed model passes both checks of `quantize_model`. */
  lemma PlanForListedModel(name: string)
    ensures PlanQuantization(Some(ModelsDir + "/" + name), None, DynamicName, InputSizeFor(name), true)
            == Ok(ListedJob(name))
  {
  }
}
