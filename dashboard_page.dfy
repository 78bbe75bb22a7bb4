/**
 * The admin dashboard (src/app/dashboard/page.tsx): the users overview
 * searched, filtered and sorted newest first, its CSV export, and the
 * fetch that fills it.
 *
 * `new Date(s).getTime()` is the parameter `time`; `new Date(s)` read as a
 * calendar day (in the viewer's time zone) is the parameter `dateOf`.
 * Money amounts are whole numbers here (see README).
 */
module DashboardPage {
  import opened Options
  import opened Seqs
  import opened Text
  import CsvQuoting

  datatype DashboardSummary = DashboardSummary(
    totalUsers: int,
    totalPaidAmount: int,
    totalUnassignedPaid: int,
    totalInCycles: int,
    openCycles: int,
    systemBalance: int)

  datatype UserOverview = UserOverview(
    id: string,
    name: string,
    fatherName: string,
    phone: string,
    image: Option<string>,
    createdAt: string,
    totalPaid: int,
    pendingCount: int,
    unassignedPaid: int,
    lastPaymentDate: Option<string>,
    totalFine: int)

  /** The status select: "all", "paid", "pending" or "fine". */
  datatype StatusFilter = All | Paid | Pending | Fine

  /** The search test: name or father's name ignoring case, or the raw term in the phone. */
  predicate MatchesSearch(u: UserOverview, search: string)
  {
    || Contains(Lower(u.name), Lower(search))
    || Contains(Lower(u.fatherName), Lower(search))
    || Contains(u.phone, search)
  }

  /** The status test. */
  predicate MatchesFilter(u: UserOverview, filter: StatusFilter)
  {
    match filter
    case All => true
    case Paid => u.totalPaid > 0
    case Pending => u.pendingCount > 0
    case Fine => u.totalFine > 0
  }

  predicate Selected(u: UserOverview, search: string, filter: StatusFilter)
  {
    MatchesSearch(u, search) && MatchesFilter(u, filter)
  }

  /** The sort key: the time of `createdAt`. */
  function JoinTime(time: string -> int): UserOverview -> int
  {
    (u: UserOverview) => time(u.createdAt)
  }

  /**
   * `filteredUsers`: exactly the selected users, each as often as in
   * `users`, newest `createdAt` first.
   */
  function FilteredUsers(users: seq<UserOverview>, search: string, filter: StatusFilter, time: string -> int)
    : (r: seq<UserOverview>)
    ensures |r| <= |users|
    ensures forall u :: multiset(r)[u] == if Selected(u, search, filter) then multiset(users)[u] else 0
    ensures forall u :: u in r <==> u in users && Selected(u, search, filter)
    ensures forall i, j :: 0 <= i < j < |r| ==> time(r[j].createdAt) <= time(r[i].createdAt)
  {
    var kept := Filter(users, u => Selected(u, search, filter));
    var r := SortDesc(kept, JoinTime(time));
    assert forall u :: u in r <==> u in kept by {
      forall u ensures u in r <==> u in kept {
        SameMultisetSameElements(r, kept, u);
      }
    }
    r
  }

  /**
   * The sort is stable: users whose `createdAt` is the same instant appear
   * in the overview in their order in the fetched list.
   */
  lemma TiesKeepListOrder(users: seq<UserOverview>, search: string, filter: StatusFilter, time: string -> int, k: int)
    ensures OfKey(FilteredUsers(users, search, filter, time), JoinTime(time), k)
         == OfKey(Filter(users, u => Selected(u, search, filter)), JoinTime(time), k)
  {
    SortDescStable(Filter(users, u => Selected(u, search, filter)), JoinTime(time), k);
  }

  /** The empty search matches every user. */
  lemma EmptySearchMatches(u: UserOverview)
    ensures MatchesSearch(u, "")
  {
    ContainsEmpty(u.phone);
  }

  /** With the empty search and "all", the overview is a reordering of every user. */
  lemma EmptySearchAllIsPermutation(users: seq<UserOverview>, time: string -> int)
    ensures multiset(FilteredUsers(users, "", All, time)) == multiset(users)
  {
    forall u
      ensures multiset(FilteredUsers(users, "", All, time))[u] == multiset(users)[u]
    {
      EmptySearchMatches(u);
    }
  }

  /** Each status filter keeps exactly the users with that amount above zero. */
  lemma StatusFiltersExact(users: seq<UserOverview>, u: UserOverview, filter: StatusFilter, time: string -> int)
    ensures filter == Paid ==> (u in FilteredUsers(users, "", filter, time) <==> u in users && u.totalPaid > 0)
    ensures filter == Pending ==> (u in FilteredUsers(users, "", filter, time) <==> u in users && u.pendingCount > 0)
    ensures filter == Fine ==> (u in FilteredUsers(users, "", filter, time) <==> u in users && u.totalFine > 0)
  {
    EmptySearchMatches(u);
  }

  /**
   * Name matching ignores case: a user whose name or father's name holds
   * some term is found by every spelling of that term that lower-cases the
   * same ("RAHIM", "rahim", "Rahim").
   */
  lemma {:induction false} NameSearchIgnoresCase(u: UserOverview, term: string, search: string)
    requires Contains(u.name, term) || Contains(u.fatherName, term)
    requires Lower(search) == Lower(term)
    ensures MatchesSearch(u, search)
  {
    if Contains(u.name, term) {
      ContainsLower(u.name, term);
    } else {
      ContainsLower(u.fatherName, term);
    }
  }

  // ---------------------------------------------------------------- CSV

  type Month = m: int | 1 <= m <= 12 witness 1
  type Day = d: int | 1 <= d <= 31 witness 1

  /** A calendar day as `date-fns` `format` reads it from a `Date`. */
  datatype CalendarDate = CalendarDate(year: nat, month: Month, day: Day)

  /** The `MMM` token: the English month abbreviation. */
  function MonthName(m: Month): (r: string)
    ensures |r| == 3
    ensures forall k :: 0 <= k < |r| ==> 'A' <= r[k] <= 'Z' || 'a' <= r[k] <= 'z'
  {
    if m == 1 then "Jan" else if m == 2 then "Feb" else if m == 3 then "Mar"
    else if m == 4 then "Apr" else if m == 5 then "May" else if m == 6 then "Jun"
    else if m == 7 then "Jul" else if m == 8 then "Aug" else if m == 9 then "Sep"
    else if m == 10 then "Oct" else if m == 11 then "Nov" else "Dec"
  }

  /** Leading zeros up to `width` characters: the `dd` and `yyyy` tokens. */
  function PadZeros(s: string, width: nat): (r: string)
    ensures |r| >= width && |r| >= |s|
    ensures forall k :: 0 <= k < |r| ==> r[k] == '0' || r[k] in s
    decreases width - |s|
  {
    if |s| >= width then s else PadZeros("0" + s, width)
  }

  /** `format(d, "MMM dd")`. */
  function MonthDay(d: CalendarDate): (r: string)
    ensures ',' !in r && '\n' !in r && '"' !in r
  {
    var dd := PadZeros(NatToString(d.day), 2);
    assert forall k :: 0 <= k < |dd| ==> '0' <= dd[k] <= '9';
    var r := MonthName(d.month) + " " + dd;
    assert forall k :: 0 <= k < |r| ==> r[k] != ',' && r[k] != '\n' && r[k] != '"' by {
      forall k | 0 <= k < |r| ensures r[k] != ',' && r[k] != '\n' && r[k] != '"' {
        if k >= 4 {
          assert r[k] == dd[k - 4];
        }
      }
    }
    r
  }

  /** The part of `format(d, "MMM dd, yyyy")` after its comma: a space and the year. */
  function YearPart(d: CalendarDate): (r: string)
    ensures ',' !in r && '\n' !in r && '"' !in r
  {
    var yyyy := PadZeros(NatToString(d.year), 4);
    assert forall k :: 0 <= k < |yyyy| ==> '0' <= yyyy[k] <= '9';
    var r := " " + yyyy;
    assert forall k :: 0 <= k < |r| ==> r[k] != ',' && r[k] != '\n' && r[k] != '"' by {
      forall k | 0 <= k < |r| ensures r[k] != ',' && r[k] != '\n' && r[k] != '"' {
        if k >= 1 {
          assert r[k] == yyyy[k - 1];
        }
      }
    }
    r
  }

  /** `format(d, "MMM dd, yyyy")`: it holds a comma. */
  function LongDate(d: CalendarDate): (r: string)
    ensures r == MonthDay(d) + [','] + YearPart(d)
    ensures ',' in r && '\n' !in r && '"' !in r
  {
    var r := MonthDay(d) + ", " + PadZeros(NatToString(d.year), 4);
    assert r[|MonthDay(d)|] == ',';
    r
  }

  const Dash: string := "—"
  const Headers: seq<string> := ["#", "Name", "Father", "Phone", "Paid", "Pending", "Fine", "Last Payment", "Joined"]
  const DataUriPrefix: string := "data:text/csv;charset=utf-8,"

  /** The last-payment cell: "MMM dd" of the date, or a dash when there is none. */
  function LastPaymentCell(u: UserOverview, dateOf: string -> CalendarDate): (r: string)
    ensures ',' !in r && '\n' !in r && '"' !in r
    ensures !Truthy(u.lastPaymentDate) ==> r == Dash
  {
    if Truthy(u.lastPaymentDate) then MonthDay(dateOf(u.lastPaymentDate.value)) else Dash
  }

  /** A number's digits hold no comma, newline or quote. */
  lemma NumberCellPlain(i: int)
    ensures ',' !in IntToString(i) && '\n' !in IntToString(i) && '"' !in IntToString(i)
  {
    var s := IntToString(i);
    assert forall k :: 0 <= k < |s| ==> s[k] != ',' && s[k] != '\n' && s[k] != '"';
  }

  /** The cells of data row `idx` (counted from zero), in header order. */
  function CsvRow(idx: nat, u: UserOverview, dateOf: string -> CalendarDate): (r: seq<string>)
    ensures |r| == |Headers|
    ensures r[0] == IntToString(idx + 1)
  {
    [ IntToString(idx + 1), u.name, u.fatherName, u.phone,
      IntToString(u.totalPaid), IntToString(u.pendingCount), IntToString(u.totalFine),
      LastPaymentCell(u, dateOf), LongDate(dateOf(u.createdAt)) ]
  }

  /** The header line, then one line per user, cells joined with commas and nothing quoted. */
  function CsvLines(users: seq<UserOverview>, dateOf: string -> CalendarDate): (r: seq<string>)
    ensures |r| == |users| + 1
    ensures r[0] == Join(Headers, ',')
    ensures forall i :: 0 <= i < |users| ==> r[i + 1] == Join(CsvRow(i, users[i], dateOf), ',')
  {
    [Join(Headers, ',')] + seq(|users|, i requires 0 <= i < |users| => Join(CsvRow(i, users[i], dateOf), ','))
  }

  /** `csvContent`: the data-URI prefix, then the lines joined with newlines. */
  function CsvContent(users: seq<UserOverview>, dateOf: string -> CalendarDate): (r: string)
    ensures |r| >= |DataUriPrefix| && r[..|DataUriPrefix|] == DataUriPrefix
    ensures r[|DataUriPrefix|..] == Join(CsvLines(users, dateOf), '\n')
  {
    DataUriPrefix + Join(CsvLines(users, dateOf), '\n')
  }

  /** The header line reads back as its nine fields. */
  lemma HeaderReadsBack()
    ensures Split(Join(Headers, ','), ',') == Headers
    ensures |Headers| == 9
  {
    assert forall k :: 0 <= k < |Headers| ==> ',' !in Headers[k] by {
      forall k | 0 <= k < |Headers| ensures ',' !in Headers[k] {
        var h := Headers[k];
        assert forall j :: 0 <= j < |h| ==> h[j] != ',';
      }
    }
    SplitJoin(Headers, ',');
  }

  /** The cells the export makes itself, all but the joining date, hold no comma, newline or quote. */
  lemma GeneratedCellsPlain(idx: nat, u: UserOverview, dateOf: string -> CalendarDate, k: int)
    requires k in {0, 4, 5, 6, 7}
    ensures var c := CsvRow(idx, u, dateOf)[k]; ',' !in c && '\n' !in c && '"' !in c
  {
    var r := CsvRow(idx, u, dateOf);
    if k == 0 {
      NumberCellPlain(idx + 1);
    } else if k == 4 {
      NumberCellPlain(u.totalPaid);
    } else if k == 5 {
      NumberCellPlain(u.pendingCount);
    } else if k == 6 {
      NumberCellPlain(u.totalFine);
    } else {
      assert r[7] == LastPaymentCell(u, dateOf);
    }
  }

  /**
   * As written: for a user whose own text holds no comma, the data row
   * still reads back as ten fields against the nine of the header, because
   * the joining date "MMM dd, yyyy" holds a comma. The first field is the
   * row number and the year lands in a tenth column.
   */
  lemma JoinedDateSplitsRow(idx: nat, u: UserOverview, dateOf: string -> CalendarDate)
    requires ',' !in u.name && ',' !in u.fatherName && ',' !in u.phone
    ensures var fields := Split(Join(CsvRow(idx, u, dateOf), ','), ',');
      && |fields| == |Headers| + 1
      && fields[0] == IntToString(idx + 1)
      && fields[8] == MonthDay(dateOf(u.createdAt))
      && fields[9] == YearPart(dateOf(u.createdAt))
  {
    var row := CsvRow(idx, u, dateOf);
    var d := dateOf(u.createdAt);
    var cells := row[..8] + [MonthDay(d), YearPart(d)];
    assert row == row[..8] + [MonthDay(d) + [','] + YearPart(d)];
    JoinSeparatorInLast(row[..8], MonthDay(d), YearPart(d), ',');
    assert forall k :: 0 <= k < |cells| ==> ',' !in cells[k] by {
      forall k | 0 <= k < |cells| ensures ',' !in cells[k] {
        if k in {0, 4, 5, 6, 7} {
          GeneratedCellsPlain(idx, u, dateOf, k);
        }
      }
    }
    SplitJoin(cells, ',');
  }

  /** So the as-written export never lines up with its header, whatever the users. */
  lemma EveryRowMisaligned(users: seq<UserOverview>, dateOf: string -> CalendarDate, i: nat)
    requires i < |users|
    requires ',' !in users[i].name && ',' !in users[i].fatherName && ',' !in users[i].phone
    ensures |Split(CsvLines(users, dateOf)[i + 1], ',')| != |Split(CsvLines(users, dateOf)[0], ',')|
  {
    HeaderReadsBack();
    JoinedDateSplitsRow(i, users[i], dateOf);
  }

  /** A user's own text holds no line break. */
  predicate SingleLine(u: UserOverview)
  {
    '\n' !in u.name && '\n' !in u.fatherName && '\n' !in u.phone
  }

  /** The as-written header line holds no line break. */
  lemma HeaderLineSingle()
    ensures '\n' !in Join(Headers, ',')
  {
    assert forall h :: 0 <= h < |Headers| ==> '\n' !in Headers[h];
    JoinAvoids(Headers, ',', '\n');
  }

  /** An as-written data line holds no line break when the user's text does not. */
  lemma PlainRowSingle(idx: nat, u: UserOverview, dateOf: string -> CalendarDate)
    requires SingleLine(u)
    ensures '\n' !in Join(CsvRow(idx, u, dateOf), ',')
  {
    RowSingleLine(idx, u, dateOf);
    JoinAvoids(CsvRow(idx, u, dateOf), ',', '\n');
  }

  /** The as-written lines hold no line break when no user's text does. */
  lemma PlainLinesSingle(users: seq<UserOverview>, dateOf: string -> CalendarDate)
    requires forall j :: 0 <= j < |users| ==> SingleLine(users[j])
    ensures forall k :: 0 <= k < |users| + 1 ==> '\n' !in CsvLines(users, dateOf)[k]
  {
    HeaderLineSingle();
    forall k | 1 <= k < |users| + 1 ensures '\n' !in CsvLines(users, dateOf)[k] {
      PlainRowSingle(k - 1, users[k - 1], dateOf);
    }
  }

  /**
   * The downloaded file itself: split after the prefix on "\n", it has the
   * header line and one line per user, and a user's line splits on ","
   * into one field more than the header.
   */
  lemma {:induction false} ContentMisaligned(users: seq<UserOverview>, dateOf: string -> CalendarDate, i: nat)
    requires forall j :: 0 <= j < |users| ==> SingleLine(users[j])
    requires i < |users|
    requires ',' !in users[i].name && ',' !in users[i].fatherName && ',' !in users[i].phone
    ensures var lines := Split(CsvContent(users, dateOf)[|DataUriPrefix|..], '\n');
      && |lines| == |users| + 1
      && |Split(lines[0], ',')| == |Headers|
      && |Split(lines[i + 1], ',')| == |Headers| + 1
  {
    PlainLinesSingle(users, dateOf);
    SplitJoin(CsvLines(users, dateOf), '\n');
    HeaderReadsBack();
    JoinedDateSplitsRow(i, users[i], dateOf);
  }

  /** The data rows' cells, one row per user. */
  function CsvRows(users: seq<UserOverview>, dateOf: string -> CalendarDate): (t: seq<seq<string>>)
    ensures |t| == |users|
    ensures forall i :: 0 <= i < |users| ==> t[i] == CsvRow(i, users[i], dateOf)
  {
    seq(|users|, i requires 0 <= i < |users| => CsvRow(i, users[i], dateOf))
  }

  /** Corrected header line: each header quoted. */
  const QuotedHeaderLine: string := CsvQuoting.QuotedLine(Headers)

  /** The corrected header line reads back as the nine headers and is one line. */
  lemma QuotedHeaderReadsBack()
    ensures CsvQuoting.ParseLine(QuotedHeaderLine) == Some(Headers)
    ensures '\n' !in QuotedHeaderLine
  {
    forall j | 0 <= j < |Headers| ensures '\n' !in Headers[j] {
      var h := Headers[j];
      assert forall m :: 0 <= m < |h| ==> h[m] != '\n';
    }
  }

  /** The cells of a row hold no line break when the user's text holds none. */
  lemma RowSingleLine(idx: nat, u: UserOverview, dateOf: string -> CalendarDate)
    requires SingleLine(u)
    ensures CsvQuoting.NoLineBreak(CsvRow(idx, u, dateOf))
  {
    forall k | 0 <= k < |CsvRow(idx, u, dateOf)| ensures '\n' !in CsvRow(idx, u, dateOf)[k] {
      if k in {0, 4, 5, 6, 7} {
        GeneratedCellsPlain(idx, u, dateOf, k);
      }
    }
  }

  /** Corrected data lines: each user's cells quoted; each line reads back as exactly its nine cells, commas inside them included. */
  function QuotedDataLines(users: seq<UserOverview>, dateOf: string -> CalendarDate): (r: seq<string>)
    ensures |r| == |users|
    ensures forall i :: 0 <= i < |users| ==> CsvQuoting.ParseLine(r[i]) == Some(CsvRow(i, users[i], dateOf))
    ensures forall i :: 0 <= i < |users| && SingleLine(users[i]) ==> '\n' !in r[i]
  {
    var t := CsvRows(users, dateOf);
    assert forall i :: 0 <= i < |users| && SingleLine(users[i]) ==> CsvQuoting.NoLineBreak(t[i]) by {
      forall i | 0 <= i < |users| && SingleLine(users[i]) ensures CsvQuoting.NoLineBreak(t[i]) {
        RowSingleLine(i, users[i], dateOf);
      }
    }
    CsvQuoting.QuotedLines(t)
  }

  /** Corrected lines: the quoted header, then the quoted data lines. */
  function QuotedCsvLines(users: seq<UserOverview>, dateOf: string -> CalendarDate): (r: seq<string>)
    ensures |r| == |users| + 1
    ensures r[0] == QuotedHeaderLine
    ensures r[1..] == QuotedDataLines(users, dateOf)
  {
    [QuotedHeaderLine] + QuotedDataLines(users, dateOf)
  }

  /** The corrected content: the same prefix and newline-joined lines. */
  function QuotedCsvContent(users: seq<UserOverview>, dateOf: string -> CalendarDate): (r: string)
    ensures |r| >= |DataUriPrefix| && r[..|DataUriPrefix|] == DataUriPrefix
    ensures r[|DataUriPrefix|..] == Join(QuotedCsvLines(users, dateOf), '\n')
  {
    DataUriPrefix + Join(QuotedCsvLines(users, dateOf), '\n')
  }

  /** With no line break in any user's text, no corrected line holds one. */
  lemma QuotedLinesSingle(users: seq<UserOverview>, dateOf: string -> CalendarDate)
    requires forall i :: 0 <= i < |users| ==> SingleLine(users[i])
    ensures forall k :: 0 <= k < |users| + 1 ==> '\n' !in QuotedCsvLines(users, dateOf)[k]
  {
    var data := QuotedDataLines(users, dateOf);
    var lines := QuotedCsvLines(users, dateOf);
    QuotedHeaderReadsBack();
    forall k | 0 <= k < |lines| ensures '\n' !in lines[k] {
      if k > 0 {
        assert lines[k] == data[k - 1];
        assert SingleLine(users[k - 1]);
      }
    }
  }

  /**
   * Corrected: with no line break in any user's text, splitting the
   * content after the prefix on newlines gives back the header line and
   * one line per user, and each line reads back as its nine cells.
   */
  lemma QuotedContentReadsBack(users: seq<UserOverview>, dateOf: string -> CalendarDate)
    requires forall i :: 0 <= i < |users| ==> SingleLine(users[i])
    ensures var lines := Split(QuotedCsvContent(users, dateOf)[|DataUriPrefix|..], '\n');
      && |lines| == |users| + 1
      && CsvQuoting.ParseLine(lines[0]) == Some(Headers)
      && forall i :: 0 <= i < |users| ==> CsvQuoting.ParseLine(lines[i + 1]) == Some(CsvRow(i, users[i], dateOf))
  {
    var data := QuotedDataLines(users, dateOf);
    var lines := QuotedCsvLines(users, dateOf);
    QuotedHeaderReadsBack();
    QuotedLinesSingle(users, dateOf);
    SplitJoin(lines, '\n');
    assert Split(QuotedCsvContent(users, dateOf)[|DataUriPrefix|..], '\n') == lines;
    assert forall i :: 0 <= i < |users| ==> lines[i + 1] == data[i];
  }

  // ---------------------------------------------------------------- page state

  /** `useSession().status`. */
  datatype SessionStatus = SessionLoading | Authenticated | Unauthenticated

  /**
   * What the two requests of `Promise.all` give: both answers, or the
   * rejection with the `message` of the thrown `Error` (`None` when what
   * was thrown is not an `Error`).
   */
  datatype FetchReply = Fetched(summary: DashboardSummary, users: seq<UserOverview>) | FetchFailed(errorMessage: Option<string>)

  datatype Request = GetSummary(token: string) | GetUsers(token: string)

  const LoadFailed: string := "Failed to load dashboard"

  /** What the page shows. */
  datatype View = Spinner | SignInPrompt | ErrorText(message: string) | Overview(rows: seq<UserOverview>)

  class Dashboard {
    var summary: Option<DashboardSummary>
    var users: seq<UserOverview>
    var loading: bool
    var error: Option<string>
    var search: string
    var filter: StatusFilter
    var requests: seq<Request>

    constructor ()
      ensures summary == None && users == [] && loading && error == None
      ensures search == "" && filter == All && requests == []
    {
      summary := None;
      users := [];
      loading := true;
      error := None;
      search := "";
      filter := All;
      requests := [];
    }

    method SetSearch(term: string)
      modifies this`search
      ensures search == term
    {
      search := term;
    }

    method SetFilter(f: StatusFilter)
      modifies this`filter
      ensures filter == f
    {
      filter := f;
    }

    /**
     * The effect: only with an authenticated session and a token does it
     * fetch; then both requests go out, the answers replace the summary
     * and the users, or the error is recorded and the old data kept, and
     * `loading` ends false either way.
     */
    method FetchData(status: SessionStatus, accessToken: Option<string>, reply: FetchReply)
      modifies this`summary, this`users, this`loading, this`error, this`requests
      ensures !(status == Authenticated && Truthy(accessToken)) ==>
        && summary == old(summary) && users == old(users) && loading == old(loading)
        && error == old(error) && requests == old(requests)
      ensures status == Authenticated && Truthy(accessToken) ==>
        && !loading
        && requests == old(requests) + [GetSummary(accessToken.value), GetUsers(accessToken.value)]
      ensures status == Authenticated && Truthy(accessToken) && reply.Fetched? ==>
        summary == Some(reply.summary) && users == reply.users && error == None
      ensures status == Authenticated && Truthy(accessToken) && reply.FetchFailed? ==>
        && summary == old(summary) && users == old(users)
        && error == Some(reply.errorMessage.GetOr(LoadFailed))
    {
      if !(status == Authenticated && Truthy(accessToken)) {
        return;
      }
      var token := accessToken.value;
      loading := true;
      error := None;
      requests := requests + [GetSummary(token), GetUsers(token)];
      match reply {
        case Fetched(s, us) =>
          summary := Some(s);
          users := us;
        case FetchFailed(message) =>
          error := Some(message.GetOr(LoadFailed));
      }
      loading := false;
    }

    /**
     * The render: the spinner while the session or the data loads, then
     * the sign-in prompt without a session, then a non-empty error, and
     * otherwise the overview of the filtered users.
     */
    function ViewOf(status: SessionStatus, hasSession: bool, time: string -> int): (v: View)
      reads this
      ensures v == Spinner <==> status == SessionLoading || loading
      ensures v == SignInPrompt <==> !(status == SessionLoading || loading) && !hasSession
      ensures v.ErrorText? <==> !(status == SessionLoading || loading) && hasSession && Truthy(error)
      ensures v.Overview? ==> v.rows == FilteredUsers(users, search, filter, time)
    {
      if status == SessionLoading || loading then Spinner
      else if !hasSession then SignInPrompt
      else if Truthy(error) then ErrorText(error.value)
      else Overview(FilteredUsers(users, search, filter, time))
    }

    /** The export button's content: the visible rows, as the CSV export writes them. */
    function ExportContent(time: string -> int, dateOf: string -> CalendarDate): (r: string)
      reads this
      ensures r == CsvContent(FilteredUsers(users, search, filter, time), dateOf)
    {
      CsvContent(FilteredUsers(users, search, filter, time), dateOf)
    }

    /**
     * The corrected export of the visible rows, every cell quoted; how it
     * reads back is `QuotedContentReadsBack`.
     */
    function QuotedExportContent(time: string -> int, dateOf: string -> CalendarDate): (r: string)
      reads this
      ensures r == QuotedCsvContent(FilteredUsers(users, search, filter, time), dateOf)
    {
      QuotedCsvContent(FilteredUsers(users, search, filter, time), dateOf)
    }
  }

  /**
   * The export writes what the overview shows: while the overview is on
   * screen, both the as-written and the corrected download hold exactly
   * its rows, in its order.
   */
  lemma ExportIsWhatIsShown(d: Dashboard, status: SessionStatus, hasSession: bool,
                            time: string -> int, dateOf: string -> CalendarDate)
    requires d.ViewOf(status, hasSession, time).Overview?
    ensures d.ExportContent(time, dateOf) == CsvContent(d.ViewOf(status, hasSession, time).rows, dateOf)
    ensures d.QuotedExportContent(time, dateOf) == QuotedCsvContent(d.ViewOf(status, hasSession, time).rows, dateOf)
  {
  }

  /**
   * When no loaded user has a line break in a name or the phone, the
   * corrected download reads back line by line as the headers and then
   * the cells of each row on screen.
   */
  lemma {:induction false} ExportedRowsReadBack(d: Dashboard, status: SessionStatus, hasSession: bool,
                                                time: string -> int, dateOf: string -> CalendarDate)
    requires d.ViewOf(status, hasSession, time).Overview?
    requires forall u :: u in d.users ==> SingleLine(u)
    ensures var rows := d.ViewOf(status, hasSession, time).rows;
      var lines := Split(d.QuotedExportContent(time, dateOf)[|DataUriPrefix|..], '\n');
      && |lines| == |rows| + 1
      && CsvQuoting.ParseLine(lines[0]) == Some(Headers)
      && forall i :: 0 <= i < |rows| ==> CsvQuoting.ParseLine(lines[i + 1]) == Some(CsvRow(i, rows[i], dateOf))
  {
    var rows := d.ViewOf(status, hasSession, time).rows;
    assert forall i :: 0 <= i < |rows| ==> SingleLine(rows[i]) by {
      forall i | 0 <= i < |rows| ensures SingleLine(rows[i]) {
        assert rows[i] in rows;
      }
    }
    QuotedContentReadsBack(rows, dateOf);
  }
}
