/**
 * The sender's player (client/src/sender/__init__.py): loading the song list from a
 * folder's songs.csv, the folder prompt loop, and the navigation loop that keeps an
 * index into the loaded list and a per-selection copy of the selected song.
 */
module SenderPlayer {
  import opened Wrappers
  import opened InputParsing

  /** `CSV_NAME`. */
  const CsvName: string := "songs.csv"

  /** `SongSegment`: a file, where its sample starts (seconds) and a comment. */
  datatype SongSegment = SongSegment(name: string, path: string, startTime: real, comment: string)

  /** `folder_path / filename`. */
  function JoinPath(folder: string, file: string): string {
    folder + "/" + file
  }

  /** What opening songs.csv gives: no file, an I/O error, or the rows the CSV reader yields. */
  datatype CsvFile = NotFound | Unreadable | Rows(rows: seq<seq<string>>)

  /** An existing song folder: its songs.csv and the file names that exist inside it. */
  datatype Folder = Folder(csv: CsvFile, files: set<string>)

  /** The existing folders, by path; a path that is not a key does not exist. */
  type Disk = map<string, Folder>

  /** The messages of the `PresentableException`s the loader raises. */
  datatype LoadError =
    | FolderMissing          // "Given folder does not exist"
    | CsvMissing             // "Given folder does not contain songs.csv"
    | CsvUnreadable          // "Could not read songs.csv"
    | SongFileMissing(path: string)  // "File from songs.csv does not exist"
    | IncorrectlyFormatted   // "songs.csv file exists, but it is incorrectly formatted"
    | EmptyList              // "Song list exists, but it's empty"

  /** What escapes `_parse_song_csv`: a presentable error, or a `ValueError` from unpacking or `float`. */
  datatype CsvFailure = Presentable(error: LoadError) | ValueError

  /**
   * One CSV row: unpacking into three fields fails first, then the file must exist,
   * then the start time must convert.
   */
  function RowToSong(toFloat: string -> Option<real>, folderPath: string, folder: Folder, row: seq<string>): (r: Result<SongSegment, CsvFailure>)
    ensures r.Ok? <==> |row| == 3 && row[0] in folder.files && toFloat(row[1]).Some?
    ensures r.Ok? ==> r.value == SongSegment(row[0], JoinPath(folderPath, row[0]), toFloat(row[1]).value, row[2])
    ensures r == Err(ValueError) <==> |row| != 3 || (row[0] in folder.files && toFloat(row[1]).None?)
    ensures r.Err? && r.error.Presentable? ==> r.error.error == SongFileMissing(JoinPath(folderPath, row[0]))
  {
    if |row| != 3 then Err(ValueError)
    else if row[0] !in folder.files then Err(Presentable(SongFileMissing(JoinPath(folderPath, row[0]))))
    else match toFloat(row[1])
      case None => Err(ValueError)
      case Some(start) => Ok(SongSegment(row[0], JoinPath(folderPath, row[0]), start, row[2]))
  }

  /** Songs already appended in front of what the remaining rows give. */
  function Prepend(songs: seq<SongSegment>, r: Result<seq<SongSegment>, CsvFailure>): Result<seq<SongSegment>, CsvFailure> {
    match r
    case Ok(more) => Ok(songs + more)
    case Err(e) => Err(e)
  }

  lemma PrependPrepend(a: seq<SongSegment>, b: seq<SongSegment>, r: Result<seq<SongSegment>, CsvFailure>)
    ensures Prepend(a, Prepend(b, r)) == Prepend(a + b, r)
  {
    if r.Ok? {
      assert a + (b + r.value) == a + b + r.value;
    }
  }

  /**
   * The rows in order; the first row that fails decides the error. On success there is
   * one song per row, and the song of row k is what row k converts to.
   */
  function RowsToSongs(toFloat: string -> Option<real>, folderPath: string, folder: Folder, rows: seq<seq<string>>): (r: Result<seq<SongSegment>, CsvFailure>)
    ensures r.Ok? <==> forall k | 0 <= k < |rows| :: RowToSong(toFloat, folderPath, folder, rows[k]).Ok?
    ensures r.Ok? ==> |r.value| == |rows|
                      && forall k | 0 <= k < |rows| :: RowToSong(toFloat, folderPath, folder, rows[k]) == Ok(r.value[k])
    ensures r.Err? ==> exists k | 0 <= k < |rows| ::
                         && RowToSong(toFloat, folderPath, folder, rows[k]) == Err(r.error)
                         && forall j | 0 <= j < k :: RowToSong(toFloat, folderPath, folder, rows[j]).Ok?
  {
    if rows == [] then Ok([])
    else match RowToSong(toFloat, folderPath, folder, rows[0])
      case Err(e) => Err(e)
      case Ok(song) =>
        var rest := RowsToSongs(toFloat, folderPath, folder, rows[1..]);
        assert forall k | 1 <= k < |rows| :: rows[k] == rows[1..][k - 1];
        if rest.Err? then
          ghost var k :| 0 <= k < |rows[1..]| && RowToSong(toFloat, folderPath, folder, rows[1..][k]) == Err(rest.error)
                         && forall j | 0 <= j < k :: RowToSong(toFloat, folderPath, folder, rows[1..][j]).Ok?;
          assert RowToSong(toFloat, folderPath, folder, rows[k + 1]) == Err(rest.error);
          Prepend([song], rest)
        else
          Prepend([song], rest)
  }

  /** `_parse_song_csv`: the folder must exist, songs.csv must open, then every row must be a song. */
  function SongCsv(toFloat: string -> Option<real>, folderPath: string, disk: Disk): (r: Result<seq<SongSegment>, CsvFailure>)
    ensures r == Err(Presentable(FolderMissing)) <==> folderPath !in disk
    ensures r == Err(Presentable(CsvMissing)) <==> folderPath in disk && disk[folderPath].csv.NotFound?
    ensures r == Err(Presentable(CsvUnreadable)) <==> folderPath in disk && disk[folderPath].csv.Unreadable?
    ensures r.Ok? ==> folderPath in disk && disk[folderPath].csv.Rows? && |r.value| == |disk[folderPath].csv.rows|
    ensures r.Ok? ==> forall k | 0 <= k < |r.value| ::
                        r.value[k].name in disk[folderPath].files && r.value[k].path == JoinPath(folderPath, r.value[k].name)
    ensures folderPath in disk && disk[folderPath].csv.Rows? ==>
              r == RowsToSongs(toFloat, folderPath, disk[folderPath], disk[folderPath].csv.rows)
  {
    if folderPath !in disk then Err(Presentable(FolderMissing))
    else match disk[folderPath].csv
      case NotFound => Err(Presentable(CsvMissing))
      case Unreadable => Err(Presentable(CsvUnreadable))
      case Rows(rows) => RowsToSongs(toFloat, folderPath, disk[folderPath], rows)
  }

  /**
   * `_load_song_list`: the new list and the error it raises, if any. A `ValueError` leaves
   * the old list in place; an empty list is stored and then rejected.
   */
  function LoadSongs(toFloat: string -> Option<real>, current: seq<SongSegment>, folderPath: string, disk: Disk): (r: (seq<SongSegment>, Option<LoadError>))
    ensures r.1.None? <==> SongCsv(toFloat, folderPath, disk).Ok? && SongCsv(toFloat, folderPath, disk).value != []
    ensures r.1.None? ==> r.0 == SongCsv(toFloat, folderPath, disk).value && |r.0| > 0
    ensures SongCsv(toFloat, folderPath, disk) == Err(ValueError) ==> r == (current, Some(IncorrectlyFormatted))
    ensures SongCsv(toFloat, folderPath, disk).Err? ==> r.0 == current
    ensures r.1 == Some(EmptyList) ==> r.0 == []
    ensures SongCsv(toFloat, folderPath, disk) == Ok([]) ==> r == ([], Some(EmptyList))
    ensures SongCsv(toFloat, folderPath, disk).Err? && SongCsv(toFloat, folderPath, disk).error.Presentable? ==>
              r == (current, Some(SongCsv(toFloat, folderPath, disk).error.error))
  {
    match SongCsv(toFloat, folderPath, disk)
    case Err(ValueError) => (current, Some(IncorrectlyFormatted))
    case Err(Presentable(e)) => (current, Some(e))
    case Ok(songs) => (songs, if songs == [] then Some(EmptyList) else None)
  }

  /** A row with the wrong number of fields, after rows that were fine, is reported as incorrectly formatted and keeps the old list. */
  lemma MalformedRowRejected(toFloat: string -> Option<real>, current: seq<SongSegment>, folderPath: string, disk: Disk, k: nat)
    requires folderPath in disk && disk[folderPath].csv.Rows?
    requires var rows := disk[folderPath].csv.rows;
      && k < |rows| && |rows[k]| != 3
      && forall j | 0 <= j < k :: RowToSong(toFloat, folderPath, disk[folderPath], rows[j]).Ok?
    ensures LoadSongs(toFloat, current, folderPath, disk) == (current, Some(IncorrectlyFormatted))
  {
    var folder := disk[folderPath];
    var rows := folder.csv.rows;
    var r := RowsToSongs(toFloat, folderPath, folder, rows);
    assert RowToSong(toFloat, folderPath, folder, rows[k]) == Err(ValueError);
    if r.Err? {
      var i :| 0 <= i < |rows| && RowToSong(toFloat, folderPath, folder, rows[i]) == Err(r.error)
               && forall j | 0 <= j < i :: RowToSong(toFloat, folderPath, folder, rows[j]).Ok?;
      assert i == k;
    }
  }

  /** One attempt of the folder prompt: the path the user would type, and the disk at that moment. */
  datatype Attempt = Attempt(typed: string, disk: Disk)

  /** Where a `_get_songs` call leaves the player. */
  datatype LoadRound = LoadRound(songs: seq<SongSegment>, path: Option<string>, loaded: bool)

  /** The folder an attempt loads: the saved one while there is one, otherwise the typed path. */
  function AttemptFolder(path: Option<string>, a: Attempt): (folder: string)
    ensures path.Some? ==> folder == path.value
    ensures path.None? ==> folder == a.typed
  {
    if path.Some? then path.value else a.typed
  }

  /** An attempt whose `_load_song_list` raises nothing: songs.csv parses to a non-empty list. */
  predicate Loads(toFloat: string -> Option<real>, path: Option<string>, a: Attempt) {
    var csv := SongCsv(toFloat, AttemptFolder(path, a), a.disk);
    csv.Ok? && csv.value != []
  }

  /**
   * `_get_songs` over a finite run of attempts: the saved folder is retried as long as one
   * is saved, otherwise the typed path is used; the first successful load saves its path.
   */
  function GetSongsFrom(toFloat: string -> Option<real>, songs: seq<SongSegment>, path: Option<string>, attempts: seq<Attempt>): (o: LoadRound)
    decreases |attempts|
    ensures o.loaded ==> |o.songs| > 0 && o.path.Some?
    ensures path.Some? ==> o.path == path
    ensures !o.loaded ==> o.path == path
    ensures attempts == [] ==> o == LoadRound(songs, path, false)
  {
    if attempts == [] then LoadRound(songs, path, false)
    else
      var folderPath := AttemptFolder(path, attempts[0]);
      var (songs', err) := LoadSongs(toFloat, songs, folderPath, attempts[0].disk);
      if err.None? then LoadRound(songs', Some(folderPath), true)
      else GetSongsFrom(toFloat, songs', path, attempts[1..])
  }

  /**
   * The prompt ends with a list exactly when some attempt loads; it is then the first
   * attempt that loads whose list and folder are kept.
   */
  lemma {:induction false} GetSongsFromFirstSuccess(toFloat: string -> Option<real>, songs: seq<SongSegment>, path: Option<string>, attempts: seq<Attempt>)
    decreases |attempts|
    ensures var o := GetSongsFrom(toFloat, songs, path, attempts);
      && (o.loaded <==> exists k | 0 <= k < |attempts| :: Loads(toFloat, path, attempts[k]))
      && (o.loaded ==> exists k | 0 <= k < |attempts| ::
            && Loads(toFloat, path, attempts[k])
            && (forall j | 0 <= j < k :: !Loads(toFloat, path, attempts[j]))
            && o.path == Some(AttemptFolder(path, attempts[k]))
            && o.songs == SongCsv(toFloat, AttemptFolder(path, attempts[k]), attempts[k].disk).value)
  {
    if attempts == [] {
    } else if Loads(toFloat, path, attempts[0]) {
      var folder := AttemptFolder(path, attempts[0]);
      assert GetSongsFrom(toFloat, songs, path, attempts) == LoadRound(SongCsv(toFloat, folder, attempts[0].disk).value, Some(folder), true);
    } else {
      var songs' := LoadSongs(toFloat, songs, AttemptFolder(path, attempts[0]), attempts[0].disk).0;
      var o := GetSongsFrom(toFloat, songs', path, attempts[1..]);
      assert GetSongsFrom(toFloat, songs, path, attempts) == o;
      GetSongsFromFirstSuccess(toFloat, songs', path, attempts[1..]);
      assert forall k | 1 <= k < |attempts| :: attempts[k] == attempts[1..][k - 1];
      if o.loaded {
        var k :| 0 <= k < |attempts[1..]|
                 && Loads(toFloat, path, attempts[1..][k])
                 && (forall j | 0 <= j < k :: !Loads(toFloat, path, attempts[1..][j]))
                 && o.path == Some(AttemptFolder(path, attempts[1..][k]))
                 && o.songs == SongCsv(toFloat, AttemptFolder(path, attempts[1..][k]), attempts[1..][k].disk).value;
        assert Loads(toFloat, path, attempts[k + 1]);
        assert forall j | 0 <= j < k + 1 :: !Loads(toFloat, path, attempts[j]);
      }
    }
  }

  /** What the player shows or plays. */
  datatype Event =
    | Selected(index: nat, count: nat, song: SongSegment)  // "Selected song:" with the list's size at that time
    | Sample(song: SongSegment, duration: real)            // a cropped segment of `song` handed to the sample callback

  /** How the navigation loop ended. */
  datatype End = QuitChosen | InputExhausted | SongsUnavailable

  /** One answer of `get_user_input`, with the attempts `_get_songs` makes if it is RELOAD. */
  datatype UserTurn = UserTurn(input: Input, args: seq<Arg>, reload: seq<Attempt>)

  /** Every turn is a command the sender parser can produce. */
  predicate AllFit(turns: seq<UserTurn>) {
    forall k | 0 <= k < |turns| :: ArgsFit(turns[k].input, turns[k].args)
  }

  lemma AllFitRest(turns: seq<UserTurn>)
    requires AllFit(turns) && turns != []
    ensures ArgsFit(turns[0].input, turns[0].args) && AllFit(turns[1..])
  {
    forall k | 0 <= k < |turns| - 1 ensures ArgsFit(turns[1..][k].input, turns[1..][k].args) {
      assert turns[1..][k] == turns[k + 1];
    }
  }

  /** The effect one command has on the selection. */
  datatype Move = Select(index: nat) | Keep(song: SongSegment) | Play(duration: real) | ReloadSongs | Exit

  /**
   * The branches of the inner loop of `_run_player`: NEXT and PREVIOUS move only inside
   * the list, SET_SONG takes a 1-based index, START_TIME edits the local copy only.
   */
  function Navigate(n: nat, i: nat, song: SongSegment, input: Input, args: seq<Arg>): (m: Move)
    requires i < n && ArgsFit(input, args)
    ensures m.Select? ==> m.index < n
    ensures m.Select? ==> input in {Next, Previous, SetSong}
    ensures input == Next ==> (m.Select? <==> i + 1 < n) && (m.Select? ==> m.index == i + 1)
    ensures input == Previous ==> (m.Select? <==> i > 0) && (m.Select? ==> m.index == i - 1)
    ensures input == SetSong ==> (m.Select? <==> 1 <= args[0].n <= n) && (m.Select? ==> m.index == args[0].n - 1)
    ensures m.Keep? ==> m.song.name == song.name && m.song.path == song.path && m.song.comment == song.comment
    ensures m.Keep? && input != StartTime ==> m.song == song
    ensures m.Exit? <==> input == Quit
    ensures m.ReloadSongs? <==> input == Reload
    ensures m.Play? <==> input == Duration
    ensures input == SetSong && !(1 <= args[0].n <= n) ==> m == Keep(song)
    ensures input == Duration ==> m == Play(args[0].f)
    ensures input == StartTime ==> m == Keep(song.(startTime := args[0].f))
  {
    match input
    case Quit => Exit
    case Reload => ReloadSongs
    case Previous => if i > 0 then Select(i - 1) else Keep(song)
    case Next => if i < n - 1 then Select(i + 1) else Keep(song)
    case StartTime => Keep(song.(startTime := args[0].f))
    case SetSong =>
      var k := args[0].n - 1;
      if k < 0 || k >= n then Keep(song) else Select(k)
    case Duration => Play(args[0].f)
  }

  /** The events shown so far, the list and saved folder at the end, and why the loop stopped. */
  datatype Session = Session(trace: seq<Event>, songs: seq<SongSegment>, path: Option<string>, end: End)

  function After(prefix: seq<Event>, s: Session): Session {
    s.(trace := prefix + s.trace)
  }

  lemma AfterAfter(a: seq<Event>, b: seq<Event>, s: Session)
    ensures After(a, After(b, s)) == After(a + b, s)
  {
    assert a + (b + s.trace) == a + b + s.trace;
  }

  /**
   * The inner loop of `_run_player` from selection `i` with local song copy `song`: every
   * change of selection shows the newly selected song, re-read from the list.
   */
  function Turns(toFloat: string -> Option<real>, songs: seq<SongSegment>, path: Option<string>, i: nat, song: SongSegment, turns: seq<UserTurn>): (s: Session)
    requires i < |songs| && AllFit(turns)
    ensures s.end != SongsUnavailable ==> |s.songs| > 0
    ensures path.Some? ==> s.path == path
    decreases |turns|
  {
    if turns == [] then Session([], songs, path, InputExhausted)
    else
      var t := turns[0];
      assert ArgsFit(t.input, t.args);
      match Navigate(|songs|, i, song, t.input, t.args)
      case Exit => Session([], songs, path, QuitChosen)
      case ReloadSongs =>
        var round := GetSongsFrom(toFloat, songs, path, t.reload);
        if !round.loaded then Session([], round.songs, round.path, SongsUnavailable)
        else
          var j := if i >= |round.songs| then 0 else i;
          After([Selected(j, |round.songs|, round.songs[j])], Turns(toFloat, round.songs, round.path, j, round.songs[j], turns[1..]))
      case Select(j) => After([Selected(j, |songs|, songs[j])], Turns(toFloat, songs, path, j, songs[j], turns[1..]))
      case Keep(song') => Turns(toFloat, songs, path, i, song', turns[1..])
      case Play(d) => After([Sample(song, d)], Turns(toFloat, songs, path, i, song, turns[1..]))
  }

  /** `_run_player` on a non-empty list: the first song is selected, then the commands run. */
  function PlayerSession(toFloat: string -> Option<real>, songs: seq<SongSegment>, path: Option<string>, turns: seq<UserTurn>): (s: Session)
    requires |songs| > 0 && AllFit(turns)
    ensures |s.trace| >= 1 && s.trace[0] == Selected(0, |songs|, songs[0])
    ensures s.end != SongsUnavailable ==> |s.songs| > 0
    ensures path.Some? ==> s.path == path
  {
    After([Selected(0, |songs|, songs[0])], Turns(toFloat, songs, path, 0, songs[0], turns))
  }

  /** One step of `Turns`, by the move the first command makes. */
  lemma TurnsFirst(toFloat: string -> Option<real>, songs: seq<SongSegment>, path: Option<string>, i: nat, song: SongSegment, turns: seq<UserTurn>)
    requires i < |songs| && AllFit(turns) && turns != []
    ensures ArgsFit(turns[0].input, turns[0].args) && AllFit(turns[1..])
    ensures var m := Navigate(|songs|, i, song, turns[0].input, turns[0].args);
      var s := Turns(toFloat, songs, path, i, song, turns);
      && (m.Exit? ==> s == Session([], songs, path, QuitChosen))
      && (m.Keep? ==> s == Turns(toFloat, songs, path, i, m.song, turns[1..]))
      && (m.Play? ==> s == After([Sample(song, m.duration)], Turns(toFloat, songs, path, i, song, turns[1..])))
      && (m.Select? ==> s == After([Selected(m.index, |songs|, songs[m.index])], Turns(toFloat, songs, path, m.index, songs[m.index], turns[1..])))
      && (m.ReloadSongs? ==>
            var round := GetSongsFrom(toFloat, songs, path, turns[0].reload);
            var j := if i >= |round.songs| then 0 else i;
            && (!round.loaded ==> s == Session([], round.songs, round.path, SongsUnavailable))
            && (round.loaded ==> s == After([Selected(j, |round.songs|, round.songs[j])], Turns(toFloat, round.songs, round.path, j, round.songs[j], turns[1..]))))
  {
    AllFitRest(turns);
  }

  /** Every selection shown is inside the list as it was at that moment: `0 <= song_i < len(self.songs)`. */
  predicate SelectionsInRange(trace: seq<Event>) {
    forall k | 0 <= k < |trace| && trace[k].Selected? :: trace[k].index < trace[k].count
  }

  lemma SelectionsInRangeAppend(a: seq<Event>, b: seq<Event>)
    requires SelectionsInRange(a) && SelectionsInRange(b)
    ensures SelectionsInRange(a + b)
  {
    forall k | 0 <= k < |a + b| && (a + b)[k].Selected? ensures (a + b)[k].index < (a + b)[k].count {
      if k >= |a| {
        assert (a + b)[k] == b[k - |a|];
      }
    }
  }

  lemma {:induction false} TurnsSelectInRange(toFloat: string -> Option<real>, songs: seq<SongSegment>, path: Option<string>, i: nat, song: SongSegment, turns: seq<UserTurn>)
    requires i < |songs| && AllFit(turns)
    ensures SelectionsInRange(Turns(toFloat, songs, path, i, song, turns).trace)
    decreases |turns|
  {
    if turns != [] {
      var t := turns[0];
      AllFitRest(turns);
      match Navigate(|songs|, i, song, t.input, t.args)
      case Exit =>
      case ReloadSongs =>
        var round := GetSongsFrom(toFloat, songs, path, t.reload);
        if round.loaded {
          var j := if i >= |round.songs| then 0 else i;
          TurnsSelectInRange(toFloat, round.songs, round.path, j, round.songs[j], turns[1..]);
          SelectionsInRangeAppend([Selected(j, |round.songs|, round.songs[j])], Turns(toFloat, round.songs, round.path, j, round.songs[j], turns[1..]).trace);
        }
      case Select(j) =>
        TurnsSelectInRange(toFloat, songs, path, j, songs[j], turns[1..]);
        SelectionsInRangeAppend([Selected(j, |songs|, songs[j])], Turns(toFloat, songs, path, j, songs[j], turns[1..]).trace);
      case Keep(song') =>
        TurnsSelectInRange(toFloat, songs, path, i, song', turns[1..]);
      case Play(d) =>
        TurnsSelectInRange(toFloat, songs, path, i, song, turns[1..]);
        SelectionsInRangeAppend([Sample(song, d)], Turns(toFloat, songs, path, i, song, turns[1..]).trace);
    }
  }

  /** The bounds invariant of `_run_player`: every selection of a whole session is in range. */
  lemma PlayerSessionSelectsInRange(toFloat: string -> Option<real>, songs: seq<SongSegment>, path: Option<string>, turns: seq<UserTurn>)
    requires |songs| > 0 && AllFit(turns)
    ensures SelectionsInRange(PlayerSession(toFloat, songs, path, turns).trace)
  {
    TurnsSelectInRange(toFloat, songs, path, 0, songs[0], turns);
    SelectionsInRangeAppend([Selected(0, |songs|, songs[0])], Turns(toFloat, songs, path, 0, songs[0], turns).trace);
  }

  /**
   * RELOAD: after a successful reload the selection stays where it was if it still fits
   * the new list, and falls back to the first song otherwise.
   */
  lemma ReloadKeepsOrResets(toFloat: string -> Option<real>, songs: seq<SongSegment>, path: Option<string>, i: nat, song: SongSegment,
                            reload: seq<Attempt>, rest: seq<UserTurn>)
    requires i < |songs| && AllFit(rest)
    requires GetSongsFrom(toFloat, songs, path, reload).loaded
    ensures var round := GetSongsFrom(toFloat, songs, path, reload);
      var j := Turns(toFloat, songs, path, i, song, [UserTurn(Reload, [], reload)] + rest).trace[0].index;
      && Turns(toFloat, songs, path, i, song, [UserTurn(Reload, [], reload)] + rest).trace[0].Selected?
      && (j == i <==> i < |round.songs|)
      && (j != i ==> j == 0)
      && Turns(toFloat, songs, path, i, song, [UserTurn(Reload, [], reload)] + rest).trace[0].song == round.songs[j]
  {
    var turns := [UserTurn(Reload, [], reload)] + rest;
    assert turns[1..] == rest;
    assert AllFit(turns) by {
      forall k | 0 <= k < |turns| ensures ArgsFit(turns[k].input, turns[k].args) {
        if k > 0 {
          assert turns[k] == rest[k - 1];
        }
      }
    }
  }

  /**
   * START_TIME edits only the local copy: a sample played afterwards starts at the new
   * time, but moving on shows the next song as it is in the list.
   */
  lemma StartTimeIsLocal(toFloat: string -> Option<real>, songs: seq<SongSegment>, path: Option<string>, i: nat, song: SongSegment,
                         start: real, duration: real)
    requires i + 1 < |songs|
    ensures var turns := [UserTurn(StartTime, [FloatArg(start)], []), UserTurn(Duration, [FloatArg(duration)], []), UserTurn(Next, [], [])];
      var s := Turns(toFloat, songs, path, i, song, turns);
      && |s.trace| >= 2
      && s.trace[0] == Sample(song.(startTime := start), duration)
      && s.trace[1] == Selected(i + 1, |songs|, songs[i + 1])
      && s.songs == songs
  {
    var t0, t1, t2 := UserTurn(StartTime, [FloatArg(start)], []), UserTurn(Duration, [FloatArg(duration)], []), UserTurn(Next, [], []);
    var turns := [t0, t1, t2];
    assert turns[1..] == [t1, t2];
    assert turns[1..][1..] == [t2];
    assert turns[1..][1..][1..] == [];
    var song' := song.(startTime := start);
    var last := Turns(toFloat, songs, path, i + 1, songs[i + 1], []);
    assert Turns(toFloat, songs, path, i, song', [t2]) == After([Selected(i + 1, |songs|, songs[i + 1])], last);
    assert Turns(toFloat, songs, path, i, song', [t1, t2]) == After([Sample(song', duration)], After([Selected(i + 1, |songs|, songs[i + 1])], last));
  }

  /**
   * QUIT returns from the player at once: nothing more is shown, the list and the saved
   * folder stay as they were, and whatever input follows is never read.
   */
  lemma QuitEndsTurns(toFloat: string -> Option<real>, songs: seq<SongSegment>, path: Option<string>, i: nat, song: SongSegment,
                      args: seq<Arg>, reload: seq<Attempt>, rest: seq<UserTurn>)
    requires i < |songs| && ArgsFit(Quit, args) && AllFit(rest)
    ensures AllFit([UserTurn(Quit, args, reload)] + rest)
    ensures Turns(toFloat, songs, path, i, song, [UserTurn(Quit, args, reload)] + rest) == Session([], songs, path, QuitChosen)
  {
    var turns := [UserTurn(Quit, args, reload)] + rest;
    assert AllFit(turns) by {
      forall k | 0 <= k < |turns| ensures ArgsFit(turns[k].input, turns[k].args) {
        if k > 0 {
          assert turns[k] == rest[k - 1];
        }
      }
    }
    assert turns[0] == UserTurn(Quit, args, reload);
  }

  /** SET_SONG with an index outside 1..n only prints a message: nothing is shown and the selection stays. */
  lemma SetSongOutOfRangeKeeps(toFloat: string -> Option<real>, songs: seq<SongSegment>, path: Option<string>, i: nat, song: SongSegment,
                               k: int, rest: seq<UserTurn>)
    requires i < |songs| && AllFit(rest)
    requires !(1 <= k <= |songs|)
    ensures AllFit([UserTurn(SetSong, [IntArg(k)], [])] + rest)
    ensures Turns(toFloat, songs, path, i, song, [UserTurn(SetSong, [IntArg(k)], [])] + rest) == Turns(toFloat, songs, path, i, song, rest)
  {
    var turns := [UserTurn(SetSong, [IntArg(k)], [])] + rest;
    assert AllFit(turns) by {
      forall j | 0 <= j < |turns| ensures ArgsFit(turns[j].input, turns[j].args) {
        if j > 0 {
          assert turns[j] == rest[j - 1];
        }
      }
    }
    assert turns[0] == UserTurn(SetSong, [IntArg(k)], []) && turns[1..] == rest;
  }

  /** NEXT on the last song and PREVIOUS on the first change nothing and show nothing. */
  lemma EdgesKeepSelection(toFloat: string -> Option<real>, songs: seq<SongSegment>, path: Option<string>, song: SongSegment, rest: seq<UserTurn>)
    requires |songs| > 0 && AllFit(rest)
    ensures Turns(toFloat, songs, path, |songs| - 1, song, [UserTurn(Next, [], [])] + rest) == Turns(toFloat, songs, path, |songs| - 1, song, rest)
    ensures Turns(toFloat, songs, path, 0, song, [UserTurn(Previous, [], [])] + rest) == Turns(toFloat, songs, path, 0, song, rest)
  {
    var next := [UserTurn(Next, [], [])] + rest;
    var prev := [UserTurn(Previous, [], [])] + rest;
    assert next[1..] == rest && prev[1..] == rest;
    assert next[0] == UserTurn(Next, [], []) && prev[0] == UserTurn(Previous, [], []);
    assert AllFit(next) && AllFit(prev) by {
      forall k | 0 <= k < |next| ensures ArgsFit(next[k].input, next[k].args) && ArgsFit(prev[k].input, prev[k].args) {
        if k > 0 {
          assert next[k] == rest[k - 1] && prev[k] == rest[k - 1];
        }
      }
    }
  }

  /** `Player`: the saved song folder and the loaded list (no list yet is the empty list). */
  class Player {
    var songFolderPath: Option<string>
    var songs: seq<SongSegment>
    /** Python's `float`, which `_parse_song_csv` applies to start times. */
    const toFloat: string -> Option<real>

    constructor (toFloat: string -> Option<real>)
      ensures songFolderPath == None && songs == [] && this.toFloat == toFloat
    {
      songFolderPath := None;
      songs := [];
      this.toFloat := toFloat;
    }

    /** `_parse_song_csv`: the checks on the folder and songs.csv, then one song appended per row. */
    static method ParseSongCsv(toFloat: string -> Option<real>, folderPath: string, disk: Disk) returns (r: Result<seq<SongSegment>, CsvFailure>)
      ensures r == SongCsv(toFloat, folderPath, disk)
    {
      if folderPath !in disk {
        return Err(Presentable(FolderMissing));
      }
      var folder := disk[folderPath];
      match folder.csv {
        case NotFound =>
          return Err(Presentable(CsvMissing));
        case Unreadable =>
          return Err(Presentable(CsvUnreadable));
        case Rows(rows) =>
          var songs: seq<SongSegment> := [];
          assert rows[0..] == rows;
          assert Prepend([], RowsToSongs(toFloat, folderPath, folder, rows)) == RowsToSongs(toFloat, folderPath, folder, rows) by {
            var all := RowsToSongs(toFloat, folderPath, folder, rows);
            if all.Ok? {
              assert [] + all.value == all.value;
            }
          }
          for k := 0 to |rows|
            invariant RowsToSongs(toFloat, folderPath, folder, rows) == Prepend(songs, RowsToSongs(toFloat, folderPath, folder, rows[k..]))
          {
            var row := rows[k];
            assert rows[k..][0] == row && rows[k..][1..] == rows[k + 1..];
            if |row| != 3 {
              return Err(ValueError);
            }
            var filename := row[0];
            if filename !in folder.files {
              return Err(Presentable(SongFileMissing(JoinPath(folderPath, filename))));
            }
            var start := toFloat(row[1]);
            if start.None? {
              return Err(ValueError);
            }
            var song := SongSegment(filename, JoinPath(folderPath, filename), start.value, row[2]);
            PrependPrepend(songs, [song], RowsToSongs(toFloat, folderPath, folder, rows[k + 1..]));
            songs := songs + [song];
          }
          assert rows[|rows|..] == [];
          assert songs + [] == songs;
          return Ok(songs);
      }
    }

    /** `_load_song_list`. */
    method LoadSongList(folderPath: string, disk: Disk) returns (err: Option<LoadError>)
      modifies this
      ensures (songs, err) == LoadSongs(toFloat, old(songs), folderPath, disk)
      ensures songFolderPath == old(songFolderPath)
    {
      var parsed := ParseSongCsv(toFloat, folderPath, disk);
      match parsed {
        case Err(ValueError) =>
          return Some(IncorrectlyFormatted);
        case Err(Presentable(e)) =>
          return Some(e);
        case Ok(list) =>
          songs := list;
          if |songs| == 0 {
            return Some(EmptyList);
          }
          return None;
      }
    }

    /** `_get_songs`: retries until a load succeeds, then saves the folder it came from. */
    method GetSongs(attempts: seq<Attempt>) returns (loaded: bool)
      modifies this
      ensures LoadRound(songs, songFolderPath, loaded) == GetSongsFrom(toFloat, old(songs), old(songFolderPath), attempts)
    {
      var k := 0;
      while k < |attempts|
        invariant k <= |attempts|
        invariant GetSongsFrom(toFloat, songs, songFolderPath, attempts[k..]) == GetSongsFrom(toFloat, old(songs), old(songFolderPath), attempts)
      {
        assert attempts[k..][0] == attempts[k] && attempts[k..][1..] == attempts[k + 1..];
        var folderPath := if songFolderPath.Some? then songFolderPath.value else attempts[k].typed;
        var err := LoadSongList(folderPath, attempts[k].disk);
        if err.None? {
          songFolderPath := Some(folderPath);
          return true;
        }
        k := k + 1;
      }
      assert attempts[k..] == [];
      return false;
    }

    /**
     * The inner `while True` of `_run_player`: handles commands, each by the branch
     * `Navigate` describes, until one changes the selection (`next` is then the position
     * after it) or the loop is left for good (`end`).
     */
    method AwaitSelection(turns: seq<UserTurn>, pos: nat, songI: nat, song: SongSegment, trace: seq<Event>)
      returns (trace': seq<Event>, songI': nat, next: nat, end: Option<End>)
      requires pos <= |turns| && songI < |songs| && AllFit(turns[pos..])
      modifies this
      ensures end.Some? ==>
                Session(trace', songs, songFolderPath, end.value) == After(trace, Turns(toFloat, old(songs), old(songFolderPath), songI, song, turns[pos..]))
      ensures end.None? ==>
                && pos < next <= |turns| && songI' < |songs| && AllFit(turns[next..])
                && After(trace' + [Selected(songI', |songs|, songs[songI'])], Turns(toFloat, songs, songFolderPath, songI', songs[songI'], turns[next..]))
                   == After(trace, Turns(toFloat, old(songs), old(songFolderPath), songI, song, turns[pos..]))
    {
      ghost var goal := After(trace, Turns(toFloat, songs, songFolderPath, songI, song, turns[pos..]));
      trace', songI', next := trace, songI, pos;
      var song' := song;
      while true
        invariant pos <= next <= |turns| && songI' < |songs|
        invariant AllFit(turns[next..])
        invariant After(trace', Turns(toFloat, songs, songFolderPath, songI', song', turns[next..])) == goal
        decreases |turns| - next
      {
        if next == |turns| {
          assert turns[next..] == [];
          return trace', songI', next, Some(InputExhausted);
        }
        var turn := turns[next];
        ghost var here := turns[next..];
        assert here[0] == turn && here[1..] == turns[next + 1..];
        TurnsFirst(toFloat, songs, songFolderPath, songI', song', here);
        next := next + 1;
        match Navigate(|songs|, songI', song', turn.input, turn.args) {
          case Exit =>
            return trace', songI', next, Some(QuitChosen);
          case ReloadSongs =>
            var loaded := GetSongs(turn.reload);
            if !loaded {
              return trace', songI', next, Some(SongsUnavailable);
            }
            if songI' >= |songs| {
              songI' := 0;
            }
            AfterAfter(trace', [Selected(songI', |songs|, songs[songI'])], Turns(toFloat, songs, songFolderPath, songI', songs[songI'], turns[next..]));
            return trace', songI', next, None;
          case Select(j) =>
            songI' := j;
            AfterAfter(trace', [Selected(songI', |songs|, songs[songI'])], Turns(toFloat, songs, songFolderPath, songI', songs[songI'], turns[next..]));
            return trace', songI', next, None;
          case Keep(copy) =>
            song' := copy;
          case Play(duration) =>
            AfterAfter(trace', [Sample(song', duration)], Turns(toFloat, songs, songFolderPath, songI', song', turns[next..]));
            trace' := trace' + [Sample(song', duration)];
        }
      }
    }

    /** `_run_player`: the outer loop shows the selected song, then waits for the selection to change. */
    method RunPlayer(turns: seq<UserTurn>) returns (trace: seq<Event>, end: End)
      requires |songs| > 0 && AllFit(turns)
      modifies this
      ensures Session(trace, songs, songFolderPath, end) == PlayerSession(toFloat, old(songs), old(songFolderPath), turns)
    {
      ghost var goal := PlayerSession(toFloat, songs, songFolderPath, turns);
      var songI: nat := 0;
      var pos: nat := 0;
      trace := [];
      assert turns[0..] == turns;
      while true
        invariant pos <= |turns| && songI < |songs|
        invariant AllFit(turns[pos..])
        invariant After(trace + [Selected(songI, |songs|, songs[songI])], Turns(toFloat, songs, songFolderPath, songI, songs[songI], turns[pos..])) == goal
        decreases |turns| - pos
      {
        var song := songs[songI];
        trace := trace + [Selected(songI, |songs|, song)];
        var stop: Option<End>;
        trace, songI, pos, stop := AwaitSelection(turns, pos, songI, song, trace);
        if stop.Some? {
          return trace, stop.value;
        }
      }
    }

    /** `run`: load a list, then run the player on it. */
    method Run(initial: seq<Attempt>, turns: seq<UserTurn>) returns (trace: seq<Event>, end: End)
      requires AllFit(turns)
      modifies this
      ensures var round := GetSongsFrom(toFloat, old(songs), old(songFolderPath), initial);
        && (!round.loaded ==> trace == [] && end == SongsUnavailable)
        && (round.loaded ==> Session(trace, songs, songFolderPath, end) == PlayerSession(toFloat, round.songs, round.path, turns))
    {
      var loaded := GetSongs(initial);
      if !loaded {
        return [], SongsUnavailable;
      }
      trace, end := RunPlayer(turns);
    }
  }
}
