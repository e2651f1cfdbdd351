/** Tally lights derived from the state document, which both HTTP clients
    do in the same way (vmix-http/src/client.rs and src/http.rs): the HTTP
    API has no `TALLY` command, so each listed input is lit by comparing
    its number with the active and the preview input. */
module HttpTally {
  import opened Common
  import opened RustText
  import opened Commands

  /** One input's light: program if it is the active input, preview if it
      is only the preview input, off otherwise. An input that is both
      active and preview is on program. */
  function TallyFor(n: InputNumber, active: InputNumber, preview: InputNumber): (t: TallyData)
    ensures t == PROGRAM <==> n == active
    ensures t == PREVIEW <==> n != active && n == preview
    ensures t == OFF <==> n != active && n != preview
  {
    if n == active then PROGRAM else if n == preview then PREVIEW else OFF
  }

  /** The listed inputs' numbers; a number that does not parse is 0. */
  function InputNumbers(inputs: seq<InputEntry>): (ns: seq<InputNumber>)
    ensures |ns| == |inputs|
    ensures forall i :: 0 <= i < |inputs| ==> ns[i] == ParseU16Or0(inputs[i].number)
  {
    seq(|inputs|, i requires 0 <= i < |inputs| => ParseU16Or0(inputs[i].number))
  }

  /** The map built by inserting each number's light in list order. */
  function TallyMapOf(ns: seq<InputNumber>, active: InputNumber, preview: InputNumber): (m: map<InputNumber, TallyData>)
    ensures forall n :: n in m <==> n in ns
    ensures forall n :: n in m ==> m[n] == TallyFor(n, active, preview)
  {
    if |ns| == 0 then map[]
    else
      var prefix := ns[..|ns| - 1];
      var last := ns[|ns| - 1];
      assert forall n :: n in ns <==> n in prefix || n == last by {
        assert ns == prefix + [last];
      }
      TallyMapOf(prefix, active, preview)[last := TallyFor(last, active, preview)]
  }

  /** A later duplicate overwrites an earlier entry with the same light,
      so the map depends only on which numbers are listed: not on their
      order, nor on repetitions. */
  lemma TallyMapOrderFree(ns: seq<InputNumber>, ms: seq<InputNumber>, active: InputNumber, preview: InputNumber)
    requires forall n :: n in ns <==> n in ms
    ensures TallyMapOf(ns, active, preview) == TallyMapOf(ms, active, preview)
  {
    var a := TallyMapOf(ns, active, preview);
    var b := TallyMapOf(ms, active, preview);
    assert a.Keys == b.Keys;
  }

  /** At most one listed input is on program, and it is the active one;
      at most one is on preview, and it is the preview input when that is
      not also the active one. */
  lemma OneProgramOnePreview(ns: seq<InputNumber>, active: InputNumber, preview: InputNumber)
    ensures var m := TallyMapOf(ns, active, preview);
            forall n :: n in m && m[n] == PROGRAM ==> n == active
    ensures var m := TallyMapOf(ns, active, preview);
            active in ns ==> active in m && m[active] == PROGRAM
    ensures var m := TallyMapOf(ns, active, preview);
            forall n :: n in m && m[n] == PREVIEW ==> n == preview && n != active
    ensures var m := TallyMapOf(ns, active, preview);
            preview in ns && preview != active ==> preview in m && m[preview] == PREVIEW
  {
  }

  lemma TallyMapOfStep(inputs: seq<InputEntry>, i: nat, active: InputNumber, preview: InputNumber)
    requires i < |inputs|
    ensures var ns := InputNumbers(inputs);
            var n := ParseU16Or0(inputs[i].number);
            TallyMapOf(ns[..i + 1], active, preview) == TallyMapOf(ns[..i], active, preview)[n := TallyFor(n, active, preview)]
  {
    var ns := InputNumbers(inputs);
    assert ns[..i + 1][..i] == ns[..i];
  }

  /** The loop of `get_tally_data` over the state document's inputs. */
  method TallyFromState(state: VmixState) returns (tally: map<InputNumber, TallyData>)
    ensures tally == TallyMapOf(InputNumbers(state.inputs), ParseU16Or0(state.active), ParseU16Or0(state.preview))
  {
    var activeInput := ParseU16Or0(state.active);
    var previewInput := ParseU16Or0(state.preview);
    ghost var ns := InputNumbers(state.inputs);
    tally := map[];
    for i := 0 to |state.inputs|
      invariant tally == TallyMapOf(ns[..i], activeInput, previewInput)
    {
      var inputNumber := ParseU16Or0(state.inputs[i].number);
      var tallyState := TallyFor(inputNumber, activeInput, previewInput);
      TallyMapOfStep(state.inputs, i, activeInput, previewInput);
      tally := tally[inputNumber := tallyState];
    }
    assert ns[..|state.inputs|] == ns;
  }

  /** `get_tally_data`: a failure to obtain the state document is passed
      on; otherwise the lights of the listed inputs. */
  method GetTallyData(fetched: Outcome<VmixState>) returns (r: Outcome<map<InputNumber, TallyData>>)
    ensures fetched.Err? ==> r == Err(fetched.error)
    ensures fetched.Panic? ==> r == Panic(fetched.site)
    ensures fetched.Ok? ==>
              r.Ok? && r.value == TallyMapOf(InputNumbers(fetched.value.inputs), ParseU16Or0(fetched.value.active), ParseU16Or0(fetched.value.preview))
  {
    match fetched {
      case Err(e) => r := Err(e);
      case Panic(site) => r := Panic(site);
      case Ok(state) =>
        var tally := TallyFromState(state);
        r := Ok(tally);
    }
  }
}
