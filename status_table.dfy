/** The lines of `HTTP_STATUSES`, as written in the source, grouped by status class. */
module StatusLines {
  /** One line of the table, as its code and reason phrase. */
  datatype Entry = Entry(code: nat, reason: string)

  /** The 2xx lines. */
  const SUCCESSFUL: seq<Entry> := [
    Entry(200, "OK"),
    Entry(201, "Created"),
    Entry(202, "Accepted"),
    Entry(203, "Non-Authoritative Information"),
    Entry(204, "No Content"),
    Entry(205, "Reset Content"),
    Entry(206, "Partial Content"),
    Entry(207, "Multi-Status"),
    Entry(208, "Already Reported"),
    Entry(226, "IM Used")
  ]

  /** The 3xx lines. */
  const REDIRECTION: seq<Entry> := [
    Entry(300, "Multiple Choices"),
    Entry(301, "Moved Permanently"),
    Entry(302, "Found"),
    Entry(303, "See Other"),
    Entry(304, "Not Modified"),
    Entry(305, "Use Proxy"),
    Entry(307, "Temporary Redirect"),
    Entry(308, "Permanent Redirect")
  ]

  /** The 4xx lines, in two parts: 400 to 417, then 418 onwards. */
  const CLIENT_ERROR: seq<Entry> := CLIENT_ERROR_BASIC + CLIENT_ERROR_EXTENDED

  const CLIENT_ERROR_BASIC: seq<Entry> := [
    Entry(400, "Bad Request"),
    Entry(401, "Unauthorized"),
    Entry(402, "Payment Required"),
    Entry(403, "Forbidden"),
    Entry(404, "Not Found"),
    Entry(405, "Method Not Allowed"),
    Entry(406, "Not Acceptable"),
    Entry(407, "Proxy Authentication Required"),
    Entry(408, "Request Timeout"),
    Entry(409, "Conflict"),
    Entry(410, "Gone"),
    Entry(411, "Length Required"),
    Entry(412, "Precondition Failed"),
    Entry(413, "Payload Too Large"),
    Entry(414, "URI Too Long"),
    Entry(415, "Unsupported Media Type"),
    Entry(416, "Range Not Satisfiable"),
    Entry(417, "Expectation Failed")
  ]

  const CLIENT_ERROR_EXTENDED: seq<Entry> := [
    Entry(418, "I'm a teapot"),
    Entry(421, "Misdirected Request"),
    Entry(422, "Unprocessable Entity"),
    Entry(423, "Locked"),
    Entry(424, "Failed Dependency"),
    Entry(425, "Too Early"),
    Entry(426, "Upgrade Required"),
    Entry(428, "Precondition Required"),
    Entry(429, "Too Many Requests"),
    Entry(431, "Request Header Fields Too Large"),
    Entry(451, "Unavailable For Legal Reasons")
  ]

  /** The 5xx lines. */
  const SERVER_ERROR: seq<Entry> := [
    Entry(501, "Not Implemented"),
    Entry(502, "Bad Gateway"),
    Entry(503, "Service Unavailable"),
    Entry(504, "Gateway Timeout"),
    Entry(505, "HTTP Version Not Supported"),
    Entry(506, "Variant Also Negotiates"),
    Entry(507, "Insufficient Storage"),
    Entry(508, "Loop Detected"),
    Entry(510, "Not Extended"),
    Entry(511, "Network Authentication Required")
  ]

  /** The lines of the table, in the source's order (there is no 500). */
  const ENTRIES: seq<Entry> := SUCCESSFUL + REDIRECTION + CLIENT_ERROR + SERVER_ERROR

  /** Each line's code is below the next line's. */
  predicate Ascending(es: seq<Entry>) {
    forall i :: 0 <= i < |es| - 1 ==> es[i].code < es[i + 1].code
  }

  /** Codes that ascend line by line ascend over the whole table, so no code repeats. */
  lemma {:induction false} AscendingIsOrdered(es: seq<Entry>)
    requires Ascending(es)
    ensures forall i, j :: 0 <= i < j < |es| ==> es[i].code < es[j].code
  {
    if es != [] {
      var init := es[..|es| - 1];
      assert Ascending(init);
      AscendingIsOrdered(init);
      forall i, j | 0 <= i < j < |es|
        ensures es[i].code < es[j].code
      {
        if j == |es| - 1 && i < j - 1 {
          assert init[i].code < init[j - 1].code;
        }
      }
    }
  }

  lemma SuccessfulAscending()
    ensures Ascending(SUCCESSFUL)
  {
  }

  lemma RedirectionAscending()
    ensures Ascending(REDIRECTION)
  {
  }

  lemma ClientErrorAscending()
    ensures Ascending(CLIENT_ERROR_BASIC) && Ascending(CLIENT_ERROR_EXTENDED)
  {
  }

  lemma ServerErrorAscending()
    ensures Ascending(SERVER_ERROR)
  {
  }

  /** The table is written in ascending order of code, group by group. */
  lemma {:induction false} EntriesAscending()
    ensures forall i, j :: 0 <= i < j < |ENTRIES| ==> ENTRIES[i].code < ENTRIES[j].code
  {
    SuccessfulAscending();
    RedirectionAscending();
    ClientErrorAscending();
    ServerErrorAscending();
    AscendingJoin(CLIENT_ERROR_BASIC, CLIENT_ERROR_EXTENDED);
    AscendingJoin(SUCCESSFUL, REDIRECTION);
    AscendingJoin(SUCCESSFUL + REDIRECTION, CLIENT_ERROR);
    AscendingJoin(SUCCESSFUL + REDIRECTION + CLIENT_ERROR, SERVER_ERROR);
    AscendingIsOrdered(ENTRIES);
  }

  /** No line of the table is for 500: the 4xx lines end at 451 and the 5xx lines start at 501. */
  lemma NoLineFor500()
    ensures forall e :: e in ENTRIES ==> e.code != 500
  {
    EntriesAscending();
    var k := |SUCCESSFUL + REDIRECTION + CLIENT_ERROR|;
    assert ENTRIES[k - 1] == CLIENT_ERROR_EXTENDED[|CLIENT_ERROR_EXTENDED| - 1];
    assert ENTRIES[k] == SERVER_ERROR[0];
    forall e | e in ENTRIES
      ensures e.code != 500
    {
      var i :| 0 <= i < |ENTRIES| && ENTRIES[i] == e;
      if i < k - 1 {
        assert ENTRIES[i].code < ENTRIES[k - 1].code;
      } else if k < i {
        assert ENTRIES[k].code < ENTRIES[i].code;
      }
    }
  }

  lemma {:induction false} AscendingJoin(a: seq<Entry>, b: seq<Entry>)
    requires Ascending(a) && Ascending(b)
    requires a != [] && b != [] && a[|a| - 1].code < b[0].code
    ensures Ascending(a + b)
  {
    var ab := a + b;
    forall i | 0 <= i < |ab| - 1
      ensures ab[i].code < ab[i + 1].code
    {
      if i == |a| - 1 {
        assert ab[i] == a[|a| - 1] && ab[i + 1] == b[0];
      } else if i < |a| - 1 {
        assert ab[i] == a[i] && ab[i + 1] == a[i + 1];
      } else {
        assert ab[i] == b[i - |a|] && ab[i + 1] == b[i - |a| + 1];
      }
    }
  }
}

/**
 * `HTTP_STATUSES`: the table from a status code to the status line sent to
 * the transport. The source spells it as one line per status ("404 Not Found")
 * and keys each line by the integer read from its first field.
 */
module StatusTable {
  import opened Wrappers
  import opened Text
  import opened StatusLines

  /** The line as written in the table: the code, a space, the reason phrase. */
  function Line(e: Entry): string {
    Spell(e.code) + " " + e.reason
  }

  function Lines(es: seq<Entry>): (lines: seq<string>)
    ensures |lines| == |es|
    ensures forall i :: 0 <= i < |es| ==> lines[i] == Line(es[i])
  {
    if es == [] then [] else Lines(es[..|es| - 1]) + [Line(es[|es| - 1])]
  }

  /** `int(line.split(maxsplit=1)[0])`; None where Python would raise (no field, or a field that is not digits). */
  function CodeOf(line: string): (code: Option<int>)
    ensures code.Some? ==> code.value >= 0
  {
    match FirstField(line)
    case None => None
    case Some(w) => if IsDigits(w) then Some(ValueOf(w)) else None
  }

  /**
   * The dict comprehension `{CodeOf(x): x for x in lines}`: a later line with
   * the same code replaces an earlier one; None when some line has no code
   * (the comprehension raises).
   */
  function Tabulate(lines: seq<string>): Option<map<int, string>> {
    if lines == [] then Some(map[])
    else
      match (Tabulate(lines[..|lines| - 1]), CodeOf(lines[|lines| - 1])) {
        case (Some(table), Some(code)) => Some(table[code := lines[|lines| - 1]])
        case _ => None
      }
  }

  /** Each line is keyed by its own code. */
  lemma CodeOfLine(e: Entry)
    ensures CodeOf(Line(e)) == Some(e.code)
  {
    var w := Spell(e.code);
    assert w + " " + e.reason == Line(e);
    FirstFieldOf(w, e.reason);
    ValueOfSpell(e.code);
  }

  /** Some entry of `es` has this code. */
  predicate HasCode(es: seq<Entry>, code: int) {
    exists e :: e in es && e.code == code
  }

  /** A status line that begins with its code and a space. */
  predicate StartsWithCode(line: string, code: int) {
    code >= 0 && Spell(code) + " " <= line
  }

  /** Tabulating one more entry's line adds its code, mapped to that line. */
  lemma TabulateStep(es: seq<Entry>)
    requires es != []
    ensures var n := |es| - 1;
      Tabulate(Lines(es[..n])).Some? ==>
        Tabulate(Lines(es)) == Some(Tabulate(Lines(es[..n])).value[es[n].code := Line(es[n])])
  {
    var n := |es| - 1;
    var lines := Lines(es);
    assert lines[..n] == Lines(es[..n]);
    CodeOfLine(es[n]);
  }

  /**
   * Tabulating lines built from entries never fails, has exactly the entries'
   * codes as keys, and maps each code to a line that starts with that code and
   * a space.
   */
  lemma {:induction false} TabulateLines(es: seq<Entry>)
    ensures Tabulate(Lines(es)).Some?
    ensures forall code :: code in Tabulate(Lines(es)).value <==> HasCode(es, code)
    ensures forall code :: code in Tabulate(Lines(es)).value ==> StartsWithCode(Tabulate(Lines(es)).value[code], code)
  {
    if es != [] {
      var init, last := es[..|es| - 1], es[|es| - 1];
      TabulateLines(init);
      TabulateStep(es);
      var table := Tabulate(Lines(init)).value;
      assert StartsWithCode(Line(last), last.code);
      forall code
        ensures code in table[last.code := Line(last)] <==> HasCode(es, code)
      {
        if HasCode(es, code) && code != last.code {
          var e :| e in es && e.code == code;
          assert e in init;
        }
        if HasCode(init, code) {
          var e :| e in init && e.code == code;
          assert e in es;
        }
        assert last in es;
      }
    }
  }

  /** No later entry of `es` has the code of the entry at `i`. */
  predicate LastWithCode(es: seq<Entry>, i: int)
    requires 0 <= i < |es|
  {
    forall j :: i < j < |es| ==> es[j].code != es[i].code
  }

  /** The code of an entry that no later entry repeats is mapped to that entry's own line. */
  lemma {:induction false} TabulateLast(es: seq<Entry>)
    ensures Tabulate(Lines(es)).Some?
    ensures forall i :: 0 <= i < |es| && LastWithCode(es, i) ==>
      es[i].code in Tabulate(Lines(es)).value && Tabulate(Lines(es)).value[es[i].code] == Line(es[i])
  {
    if es != [] {
      var init := es[..|es| - 1];
      TabulateLast(init);
      TabulateStep(es);
      LastStep(es, init, Tabulate(Lines(init)).value);
    }
  }

  /** Adding the last entry's line keeps every earlier entry that stays last with its code. */
  lemma LastStep(es: seq<Entry>, init: seq<Entry>, prev: map<int, string>)
    requires es != [] && init == es[..|es| - 1]
    requires forall i :: 0 <= i < |init| && LastWithCode(init, i) ==> init[i].code in prev && prev[init[i].code] == Line(init[i])
    ensures var table := prev[es[|es| - 1].code := Line(es[|es| - 1])];
      forall i :: 0 <= i < |es| && LastWithCode(es, i) ==> es[i].code in table && table[es[i].code] == Line(es[i])
  {
    var n := |es| - 1;
    var table := prev[es[n].code := Line(es[n])];
    forall i | 0 <= i < |es| && LastWithCode(es, i)
      ensures es[i].code in table && table[es[i].code] == Line(es[i])
    {
      if i < n {
        assert init[i] == es[i];
        assert LastWithCode(init, i);
      }
    }
  }

  /** Where no code repeats, every entry's code is mapped to its own line. */
  lemma {:induction false} DistinctLines(es: seq<Entry>)
    requires forall i, j :: 0 <= i < j < |es| ==> es[i].code < es[j].code
    ensures Tabulate(Lines(es)).Some?
    ensures forall e :: e in es ==> e.code in Tabulate(Lines(es)).value && Tabulate(Lines(es)).value[e.code] == Line(e)
  {
    TabulateLast(es);
    forall e | e in es
      ensures e.code in Tabulate(Lines(es)).value && Tabulate(Lines(es)).value[e.code] == Line(e)
    {
      var i :| 0 <= i < |es| && es[i] == e;
      assert LastWithCode(es, i);
    }
  }

  /** `table` maps the code of every entry of `es` to that entry's line. */
  predicate Lists(table: map<int, string>, es: seq<Entry>) {
    forall e :: e in es ==> e.code in table && table[e.code] == Line(e)
  }

  /** Every line of the table, as listed. */
  lemma ListedLines()
    ensures Tabulate(Lines(ENTRIES)).Some?
    ensures Lists(Tabulate(Lines(ENTRIES)).value, ENTRIES)
  {
    EntriesAscending();
    ListedBy(ENTRIES);
  }

  lemma ListedBy(es: seq<Entry>)
    requires forall i, j :: 0 <= i < j < |es| ==> es[i].code < es[j].code
    ensures Tabulate(Lines(es)).Some?
    ensures Lists(Tabulate(Lines(es)).value, es)
  {
    DistinctLines(es);
  }

  /** The table itself: every listed code, each mapped to its listed line. */
  function HttpStatuses(): (table: map<int, string>)
    ensures forall code :: code in table <==> HasCode(ENTRIES, code)
    ensures Lists(table, ENTRIES)
    ensures forall code :: code in table ==> StartsWithCode(table[code], code)
  {
    TabulateLines(ENTRIES);
    ListedLines();
    Tabulate(Lines(ENTRIES)).value
  }

  /** `Response.status_text`: `HTTP_STATUSES[status]`, a KeyError for an unset or unlisted status. */
  function StatusText(status: Option<int>): (r: Result<string>)
    ensures r.Ok? <==> status.Some? && status.value in HttpStatuses()
    ensures r.Ok? ==> Spell(status.value) + " " <= r.value
    ensures r.Err? ==> r.error == UnknownStatus(status)
  {
    if status.Some? && status.value in HttpStatuses() then Ok(HttpStatuses()[status.value])
    else Err(UnknownStatus(status))
  }

  /** The status text of a listed code is that code's line, as written in the table. */
  lemma StatusTextListed(i: int)
    requires 0 <= i < |ENTRIES|
    ensures StatusText(Some(ENTRIES[i].code)) == Ok(Line(ENTRIES[i]))
  {
  }

  /** The three statuses the pipeline infers are listed. */
  lemma InferableStatusesListed()
    ensures 200 in HttpStatuses() && 204 in HttpStatuses() && 404 in HttpStatuses()
  {
    assert Entry(200, "OK") in ENTRIES;
    assert Entry(204, "No Content") in ENTRIES;
    assert Entry(404, "Not Found") in ENTRIES;
  }

  /** The table has no line for 500, so a handler that sets it fails at `status_text`. */
  lemma NoInternalServerError()
    ensures 500 !in HttpStatuses()
  {
    NoLineFor500();
  }
}
