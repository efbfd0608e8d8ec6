// Run-wide anomaly counters and their end-of-run summary.
module Stats {
  import opened Wrappers

  /** The seventeen counters, in declaration order, as one value. */
  datatype Counts = Counts(
    outputZombies: int, inputZombies: int, inputFileNotReadable: int, outputFileNotReadable: int,
    validFilePairs: int, entriesMismatch: int, totalEntries: int, keSizeMismatch: int,
    ioVtxMismatch: int, nuInFinalState: int, toWall: int, energyDoNotMatch: int,
    goneWrong: int, diffInvalid: int, diffOutRange: int, diffOut5xRange: int, diff1To10MeV: int)

  /** Every counter at zero. */
  const ZERO_COUNTS: Counts := Counts(0, 0, 0, 0, 0, 0, 0, 0, 0, 0, 0, 0, 0, 0, 0, 0, 0)

  class Statistics {
    var n_output_zombies: int
    var n_input_zombies: int
    var n_input_file_not_readable: int
    var n_output_file_not_readable: int
    var n_valid_file_pairs: int
    var n_entries_mismatch: int
    var n_total_entries: int
    var n_events_with_KE_size_mismatch: int
    var n_io_vtx_mismatch: int
    var n_evts_w_nu_in_final_state: int
    var n_toWall: int
    var n_entries_energy_do_not_match: int
    var n_gone_wrong: int
    var n_diff_invalid: int
    var n_diff_out_range: int
    var n_diff_out_5xrange: int
    var n_diff_1_10_MeV: int

    /** All counters, in declaration order. */
    function Counters(): (c: Counts)
      reads this
      ensures c == ZERO_COUNTS <==> AllZero()
    {
      Counts(n_output_zombies, n_input_zombies, n_input_file_not_readable, n_output_file_not_readable,
             n_valid_file_pairs, n_entries_mismatch, n_total_entries, n_events_with_KE_size_mismatch,
             n_io_vtx_mismatch, n_evts_w_nu_in_final_state, n_toWall, n_entries_energy_do_not_match,
             n_gone_wrong, n_diff_invalid, n_diff_out_range, n_diff_out_5xrange, n_diff_1_10_MeV)
    }

    /** Every counter is zero. */
    predicate AllZero()
      reads this
    {
      && n_output_zombies == 0 && n_input_zombies == 0 && n_input_file_not_readable == 0
      && n_output_file_not_readable == 0 && n_valid_file_pairs == 0 && n_entries_mismatch == 0
      && n_total_entries == 0 && n_events_with_KE_size_mismatch == 0 && n_io_vtx_mismatch == 0
      && n_evts_w_nu_in_final_state == 0 && n_toWall == 0 && n_entries_energy_do_not_match == 0
      && n_gone_wrong == 0 && n_diff_invalid == 0 && n_diff_out_range == 0
      && n_diff_out_5xrange == 0 && n_diff_1_10_MeV == 0
    }

    constructor ()
      ensures AllZero() && Counters() == ZERO_COUNTS
    {
      n_output_zombies := 0;
      n_input_zombies := 0;
      n_input_file_not_readable := 0;
      n_output_file_not_readable := 0;
      n_valid_file_pairs := 0;
      n_entries_mismatch := 0;
      n_total_entries := 0;
      n_events_with_KE_size_mismatch := 0;
      n_io_vtx_mismatch := 0;
      n_evts_w_nu_in_final_state := 0;
      n_toWall := 0;
      n_entries_energy_do_not_match := 0;
      n_gone_wrong := 0;
      n_diff_invalid := 0;
      n_diff_out_range := 0;
      n_diff_out_5xrange := 0;
      n_diff_1_10_MeV := 0;
    }

    method Reset()
      modifies this
      ensures AllZero() && Counters() == ZERO_COUNTS
    {
      ResetFileCounters();
      ResetEventCounters();
      ResetEnergyCounters();
    }

    // Reset, in three groups of counters.

    method ResetFileCounters()
      modifies this`n_output_zombies, this`n_input_zombies, this`n_input_file_not_readable,
               this`n_output_file_not_readable, this`n_valid_file_pairs
      ensures n_output_zombies == 0 && n_input_zombies == 0 && n_input_file_not_readable == 0
      ensures n_output_file_not_readable == 0 && n_valid_file_pairs == 0
    {
      n_output_zombies := 0;
      n_input_zombies := 0;
      n_input_file_not_readable := 0;
      n_output_file_not_readable := 0;
      n_valid_file_pairs := 0;
    }

    method ResetEventCounters()
      modifies this`n_entries_mismatch, this`n_total_entries, this`n_events_with_KE_size_mismatch,
               this`n_io_vtx_mismatch, this`n_evts_w_nu_in_final_state, this`n_toWall
      ensures n_entries_mismatch == 0 && n_total_entries == 0 && n_events_with_KE_size_mismatch == 0
      ensures n_io_vtx_mismatch == 0 && n_evts_w_nu_in_final_state == 0 && n_toWall == 0
    {
      n_entries_mismatch := 0;
      n_total_entries := 0;
      n_events_with_KE_size_mismatch := 0;
      n_io_vtx_mismatch := 0;
      n_evts_w_nu_in_final_state := 0;
      n_toWall := 0;
    }

    method ResetEnergyCounters()
      modifies this`n_entries_energy_do_not_match, this`n_gone_wrong, this`n_diff_invalid,
               this`n_diff_out_range, this`n_diff_out_5xrange, this`n_diff_1_10_MeV
      ensures n_entries_energy_do_not_match == 0 && n_gone_wrong == 0 && n_diff_invalid == 0
      ensures n_diff_out_range == 0 && n_diff_out_5xrange == 0 && n_diff_1_10_MeV == 0
    {
      n_entries_energy_do_not_match := 0;
      n_gone_wrong := 0;
      n_diff_invalid := 0;
      n_diff_out_range := 0;
      n_diff_out_5xrange := 0;
      n_diff_1_10_MeV := 0;
    }

    /** The summary block that PrintSummary writes; it only reads the counters. */
    function Summary(chunkName: string): (r: Report)
      reads this
      ensures r.header == "   Summary " + chunkName + ":"
      ensures |r.lines| == 6
      ensures forall i :: 0 <= i < |r.lines| ==> r.lines[i].value == SummaryValues(Counters())[i]
      ensures forall i :: 0 <= i < |r.lines| && i != 3 ==> r.lines[i].share.None?
      ensures r.lines[3].share.Some? <==> n_total_entries > 0
      ensures r.lines[3].share.Some? ==>
        r.lines[3].share.value.total == n_total_entries
        && r.lines[3].share.value.percent * (n_total_entries as real)
           == 100.0 * (n_events_with_KE_size_mismatch as real)
    {
      Report("   Summary " + chunkName + ":",
        [ PlainLine("Number of non-existing or corrupted input (genie) files",
                    n_input_file_not_readable),
          PlainLine("Number of non-existing or corrupted output (Ratpac) files",
                    n_output_file_not_readable),
          PlainLine("Number of I/O file pairs with number of entry mismatch",
                    n_entries_mismatch),
          ShareLine("Number of primary events with true KE entries number mismatch",
                    n_events_with_KE_size_mismatch, n_total_entries, true),
          PlainLine("Number of events with I/O vtx position mismatch",
                    n_io_vtx_mismatch),
          PlainLine("Number of I/O file pairs analyzed",
                    n_valid_file_pairs) ])
    }
  }

  /** The counters the six summary lines report, in print order. */
  function SummaryValues(c: Counts): seq<int> {
    [c.inputFileNotReadable, c.outputFileNotReadable, c.entriesMismatch, c.keSizeMismatch,
     c.ioVtxMismatch, c.validFilePairs]
  }

  /** A percentage of a reference total, as printed after " over <total> total events". */
  datatype Share = Share(total: int, percent: real)

  datatype Line = Line(caption: string, value: int, share: Option<Share>)

  datatype Report = Report(header: string, lines: seq<Line>)

  /** The two-argument PrintLine: caption and raw count only. */
  function PlainLine(caption: string, value: int): (l: Line)
    ensures l.caption == caption && l.value == value && l.share.None?
  {
    Line(caption, value, None)
  }

  /** The four-argument PrintLine: the percentage appears only when it is requested and the
      total is positive, so it never divides by zero; it is then 100 * value / total. */
  function ShareLine(caption: string, value: int, total: int, showPercent: bool): (l: Line)
    ensures l.caption == caption && l.value == value
    ensures l.share.Some? <==> showPercent && total > 0
    ensures l.share.Some? ==>
      l.share.value.total == total && l.share.value.percent * (total as real) == 100.0 * (value as real)
  {
    if showPercent && total > 0 then
      Line(caption, value, Some(Share(total, 100.0 * (value as real) / (total as real))))
    else
      Line(caption, value, None)
  }
}
