/** The per-sequencer result dictionary that the status engine fills in. */
module Records {
  import opened Wrappers
  import opened Chart

  /** One entry of result['reads']. */
  datatype ReadEntry = ReadEntry(readId: int, firstCycle: int, lastCycle: int, totalCycles: int, isIndex: bool)

  /** The values stored in a result dictionary. Reagents holds the opaque
      output of run_parameters (reagent name to tag to text); NoneValue is
      Python's None. */
  datatype Value =
    | Str(s: string)
    | Int(i: int)
    | Bool(b: bool)
    | Reads(entries: seq<ReadEntry>)
    | PlotValue(plot: Plot)
    | Reagents(tags: map<string, map<string, string>>)
    | NoneValue

  /** A node text stored as it is: None becomes the JSON null. */
  function TextValue(t: Option<string>): (v: Value)
    ensures v.NoneValue? <==> t.None?
    ensures t.Some? ==> v == Str(t.value)
  {
    if t.None? then NoneValue else Str(t.value)
  }

  type Fields = map<string, Value>

  /** result[seq]['status'], or "" when it is not a string. */
  function StatusOf(f: Fields): string
  {
    if "status" in f && f["status"].Str? then f["status"].s else ""
  }

  /** What run_info reads from RunInfo.xml (the date already reformatted). */
  datatype RunInfo = RunInfo(pairedEnd: bool, totalCycles: int, instName: string, runName: string,
                             date: string, flowcellId: string)

  /** What run_parameters reads from the run parameters file. */
  datatype RunParameters = RunParameters(expName: string, reagents: map<string, map<string, string>>)

  /** The five formatted summary metrics, before their units are appended
      (the float formatting that produces them is not modelled). */
  datatype Totals = Totals(gt30: string, totalYield: string, percentAligned: string,
                           clusterDensity: string, clusterPfPercent: string)

  /** The keys run_info sets. */
  function InfoWrites(i: RunInfo): Fields
  {
    map["paired-end" := Bool(i.pairedEnd), "total_cycles" := Int(i.totalCycles), "inst_name" := Str(i.instName),
        "run_name" := Str(i.runName), "date" := Str(i.date), "flowcell_id" := Str(i.flowcellId)]
  }

  /** The keys run_parameters sets: exp_name and reagents, and no other. */
  function ParamWrites(p: RunParameters): (w: Fields)
    ensures forall k :: k in w <==> k == "exp_name" || k == "reagents"
  {
    map["exp_name" := Str(p.expName), "reagents" := Reagents(p.reagents)]
  }

  /** A result dictionary that is updated in place. */
  class Record {
    var fields: Fields

    constructor (init: Fields)
      ensures fields == init
    {
      fields := init;
    }

    /** result[key] = v */
    method Put(key: string, v: Value)
      modifies this
      ensures fields == old(fields)[key := v]
    {
      fields := fields[key := v];
    }

    /** The writes a collector the model does not follow makes into the
        dictionary, applied in one step: its keys overwrite. */
    method Merge(writes: Fields)
      modifies this
      ensures fields == old(fields) + writes
    {
      fields := fields + writes;
    }
  }
}
