/** The MiSeq completion date as the two oldest status revisions derive it
    from the CompletionTime text of CompletedJobInfo.xml:
    dt = text.split('T'); dt[0] + '   ' + ':'.join(dt[1].split('.')[0].split(':', 2)[:2]). */
module CompletionTime {
  import opened Wrappers
  import opened Text

  /** The first two ':'-fields of s joined again by ':' (split(':', 2)[:2]:
      the split limit does not change the first two fields). */
  function HoursMinutes(s: string): string
  {
    var parts := Split(s, ":");
    Join(parts[..if |parts| < 2 then |parts| else 2], ":")
  }

  /** The trimmed completion date; indexing dt[1] fails when the text has no 'T'. */
  function TrimCompletionTime(text: string): (r: Result<string>)
    ensures r.Failure? <==> !Contains(text, "T")
    ensures r.Success? ==> |r.value| >= 3
  {
    var dt := Split(text, "T");
    SplitParts(text, "T");
    if |dt| < 2 then Failure("IndexError: list index out of range")
    else Success(dt[0] + "   " + HoursMinutes(Split(dt[1], ".")[0]))
  }

  /** HH:MM:SS keeps its hours and minutes. */
  lemma HoursMinutesOf(hh: string, mm: string, ss: string)
    requires ':' !in hh && ':' !in mm && ':' !in ss
    ensures HoursMinutes(hh + ":" + mm + ":" + ss) == hh + ":" + mm
  {
    var tail := mm + [':'] + ss;
    assert hh + ":" + mm + ":" + ss == hh + [':'] + tail;
    FirstCharAbsent(ss, [':']);
    SplitWithoutSep(ss, [':']);
    SplitAtFirst(mm, ':', ss);
    assert Split(tail, [':']) == [mm, ss];
    SplitAtFirst(hh, ':', tail);
    var parts := Split(hh + [':'] + tail, [':']);
    assert parts == [hh, mm, ss];
    assert parts[..2] == [hh, mm];
    assert Join([hh, mm], [':']) == hh + [':'] + Join([mm], [':']);
  }

  lemma FirstField(a: string, c: char, b: string)
    requires c !in a
    ensures Split(a + [c] + b, [c])[0] == a
  {
    SplitAtFirst(a, c, b);
  }

  /** With exactly one 'T', the date part is kept and the time part trimmed. */
  lemma TrimAtT(d: string, rest: string)
    requires 'T' !in d && 'T' !in rest
    ensures TrimCompletionTime(d + ['T'] + rest) == Success(d + "   " + HoursMinutes(Split(rest, ".")[0]))
  {
    SplitAtFirst(d, 'T', rest);
    FirstCharAbsent(rest, "T");
    SplitWithoutSep(rest, "T");
    assert Split(d + ['T'] + rest, "T") == [d, rest];
  }

  /** The pieces of an ISO date-time, regrouped around its 'T' and its '.'. */
  lemma IsoPieces(d: string, hh: string, mm: string, ss: string, f: string)
    requires 'T' !in d && 'T' !in hh && 'T' !in mm && 'T' !in ss && 'T' !in f
    requires '.' !in hh && '.' !in mm && '.' !in ss
    ensures var hms := hh + ":" + mm + ":" + ss;
      && d + "T" + hh + ":" + mm + ":" + ss + "." + f == d + ['T'] + (hms + ['.'] + f)
      && 'T' !in hms + ['.'] + f && '.' !in hms
  {
  }

  /** An ISO date-time D 'T' HH ':' MM ':' SS '.' F becomes D, three spaces,
      HH ':' MM. */
  lemma TrimIsoTime(d: string, hh: string, mm: string, ss: string, f: string)
    requires 'T' !in d && 'T' !in hh && 'T' !in mm && 'T' !in ss && 'T' !in f
    requires ':' !in hh && ':' !in mm && ':' !in ss
    requires '.' !in hh && '.' !in mm && '.' !in ss
    ensures TrimCompletionTime(d + "T" + hh + ":" + mm + ":" + ss + "." + f) == Success(d + "   " + hh + ":" + mm)
  {
    var hms := hh + ":" + mm + ":" + ss;
    IsoPieces(d, hh, mm, ss, f);
    TrimAtT(d, hms + ['.'] + f);
    FirstField(hms, '.', f);
    HoursMinutesOf(hh, mm, ss);
    assert d + "   " + (hh + ":" + mm) == d + "   " + hh + ":" + mm;
  }
}
