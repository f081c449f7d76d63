/**
 * The argument vector that `run_processing_script` hands to the worker
 * thread: either the fixed test-window command or `./tools/pipeline.sh` with
 * eleven flags in a fixed order, each followed by its value rendered as
 * Python's `str` renders it.
 */
module PipelineCommand {
  import opened Wrappers
  import opened PyText

  /** The values read from the widgets of the options window at launch. */
  datatype Options = Options(
    maxResolution: int,        // options_1_max_res_slid
    estimateRoi: int,          // options_1_est_roi_slid
    verbosity: int,            // options_1_verb_slid
    decimation: int,           // options_2_decim_slid (sent as value / 10)
    removeDenseMaps: bool,     // options_1_rem_dmaps_rad
    integrateRoi: bool,        // options_2_integrate_roi_rad
    smoothingIterations: int,  // options_2_smot_iter_slid
    minPointDistance: int,     // options_2_min_dis_slid
    exportPly: bool            // options_2_ext_type_rad
  )

  /** What a command vector asks the worker to run. */
  datatype Invocation =
    | TestWindows
    | Pipeline(input: string, output: string, options: Options)

  const PIPELINE_SCRIPT := "./tools/pipeline.sh"
  const TEST_COMMAND: seq<string> := ["python3", "src/test_win.py"]
  /** The flags of the pipeline script, in the order the vector carries them. */
  const FLAGS: seq<string> := ["-i", "-o", "-m", "-e", "-v", "-s", "-d", "-r", "-t", "-p", "-x"]

  /** The value that follows each flag, in the order of FLAGS, as `str` renders it. */
  function Values(input: string, output: string, o: Options): (vs: seq<string>)
    ensures |vs| == |FLAGS|
  {
    [input, output,
     IntToString(o.maxResolution), IntToString(o.estimateRoi), IntToString(o.verbosity),
     TenthsString(o.decimation),
     BitString(o.removeDenseMaps), BitString(o.integrateRoi),
     IntToString(o.smoothingIterations), IntToString(o.minPointDistance),
     BitString(o.exportPly)]
  }

  /** flags[0], values[0], flags[1], values[1], ... */
  function Interleave(flags: seq<string>, values: seq<string>): seq<string>
    requires |flags| == |values|
  {
    if flags == [] then [] else [flags[0], values[0]] + Interleave(flags[1..], values[1..])
  }

  lemma {:induction false} InterleaveAt(flags: seq<string>, values: seq<string>, k: nat)
    requires |flags| == |values| && k < |flags|
    ensures |Interleave(flags, values)| == 2 * |flags|
    ensures Interleave(flags, values)[2 * k] == flags[k]
    ensures Interleave(flags, values)[2 * k + 1] == values[k]
  {
    if k == 0 {
      InterleaveLength(flags[1..], values[1..]);
    } else {
      InterleaveAt(flags[1..], values[1..], k - 1);
    }
  }

  lemma {:induction false} InterleaveLength(flags: seq<string>, values: seq<string>)
    requires |flags| == |values|
    ensures |Interleave(flags, values)| == 2 * |flags|
  {
    if flags != [] {
      InterleaveLength(flags[1..], values[1..]);
    }
  }

  /**
   * The vector built at main.py:339-355: the test-window command, or the
   * pipeline script followed by every flag and its value.
   */
  function Command(testWindows: bool, input: string, output: string, o: Options): (cmd: seq<string>)
    ensures |cmd| == if testWindows then |TEST_COMMAND| else 1 + 2 * |FLAGS|
    ensures cmd[0] == if testWindows then "python3" else PIPELINE_SCRIPT
  {
    if testWindows then TEST_COMMAND
    else
      InterleaveLength(FLAGS, Values(input, output, o));
      [PIPELINE_SCRIPT] + Interleave(FLAGS, Values(input, output, o))
  }

  /**
   * The layout of a pipeline vector: 23 strings, the script first, then
   * each flag of FLAGS in order, each followed by its value; the directories
   * verbatim and the three radio buttons as "0" or "1".
   */
  lemma CommandLayout(input: string, output: string, o: Options)
    ensures var cmd := Command(false, input, output, o);
      && |cmd| == 23 && cmd[0] == PIPELINE_SCRIPT
      && (forall k :: 0 <= k < |FLAGS| ==> cmd[2 * k + 1] == FLAGS[k])
      && (forall k :: 0 <= k < |FLAGS| ==> cmd[2 * k + 2] == Values(input, output, o)[k])
      && cmd[2] == input && cmd[4] == output
      && cmd[14] in {"0", "1"} && cmd[16] in {"0", "1"} && cmd[22] in {"0", "1"}
  {
    var vs := Values(input, output, o);
    var cmd := Command(false, input, output, o);
    InterleaveLength(FLAGS, vs);
    forall k | 0 <= k < |FLAGS|
      ensures cmd[2 * k + 1] == FLAGS[k] && cmd[2 * k + 2] == vs[k]
    {
      InterleaveAt(FLAGS, vs, k);
    }
    assert cmd[2] == vs[0] && cmd[4] == vs[1];
    assert cmd[14] == vs[6] && cmd[16] == vs[7] && cmd[22] == vs[10];
  }

  /** Reads a vector back: the reference against which `Command` is checked. */
  function Decode(cmd: seq<string>): Option<Invocation>
  {
    if cmd == TEST_COMMAND then
      Some(TestWindows)
    else if |cmd| == 23 && cmd[0] == PIPELINE_SCRIPT
         && forall k :: 0 <= k < |FLAGS| ==> cmd[2 * k + 1] == FLAGS[k] then
      Some(Pipeline(cmd[2], cmd[4], Options(
        ParseInt(cmd[6]), ParseInt(cmd[8]), ParseInt(cmd[10]), ParseTenths(cmd[12]),
        cmd[14] == "1", cmd[16] == "1",
        ParseInt(cmd[18]), ParseInt(cmd[20]), cmd[22] == "1")))
    else
      None
  }

  /**
   * Every option reaches the script: decoding the vector gives back exactly
   * the invocation it was built from, so two launches with different
   * directories or options never produce the same vector.
   */
  lemma CommandRoundTrip(testWindows: bool, input: string, output: string, o: Options)
    ensures Decode(Command(testWindows, input, output, o))
            == Some(if testWindows then TestWindows else Pipeline(input, output, o))
  {
    if !testWindows {
      var cmd := Command(testWindows, input, output, o);
      var vs := Values(input, output, o);
      CommandLayout(input, output, o);
      assert cmd != TEST_COMMAND by { assert |cmd| != |TEST_COMMAND|; }
      assert cmd[6] == vs[2] && cmd[8] == vs[3] && cmd[10] == vs[4] && cmd[12] == vs[5];
      assert cmd[14] == vs[6] && cmd[16] == vs[7] && cmd[18] == vs[8] && cmd[20] == vs[9];
      assert cmd[22] == vs[10];
      IntToStringRoundTrip(o.maxResolution);
      IntToStringRoundTrip(o.estimateRoi);
      IntToStringRoundTrip(o.verbosity);
      TenthsStringRoundTrip(o.decimation);
      IntToStringRoundTrip(o.smoothingIterations);
      IntToStringRoundTrip(o.minPointDistance);
    }
  }

  lemma CommandInjective(t1: bool, i1: string, o1: string, p1: Options,
                         t2: bool, i2: string, o2: string, p2: Options)
    requires Command(t1, i1, o1, p1) == Command(t2, i2, o2, p2)
    ensures t1 == t2
    ensures !t1 ==> i1 == i2 && o1 == o2 && p1 == p2
  {
    CommandRoundTrip(t1, i1, o1, p1);
    CommandRoundTrip(t2, i2, o2, p2);
  }
}
