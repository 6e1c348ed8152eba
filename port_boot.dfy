/**
 * Boot-time port selection and persistence (`main`, up to the point where the
 * server is built): load the stored port or fall back to 1116, search upward
 * from it for a free port, and rewrite the state file `wei-server-mcp.dat`
 * when the port changed or the file does not exist.
 */
module PortBoot {
  import opened Wrappers
  import opened PortText
  import opened PortSearch

  /** The port tried first when no port is stored. */
  const DEFAULT_PORT: Port := 1116

  /**
   * The state file as the process sees it: absent, present but not readable
   * as text (`read_to_string` fails, `exists` holds), or present with text.
   */
  datatype DatFile = Missing | Unreadable | Text(contents: string)

  /** How a boot ends. */
  datatype BootOutcome =
    | NoFreePort                              // reported, server not started
    | Panicked                                // the search overflowed `u16`
    | Started(port: Port, save: SaveAttempt)  // server started on `port`

  datatype SaveAttempt = NotAttempted | Saved | SaveFailed

  /** `read_port_from_file`: the trimmed text parsed as a `u16`; `None` on any failure. */
  function LoadPort(f: DatFile): (r: Option<Port>)
    ensures r.Some? ==> f.Text? && Trim(f.contents) != []
    ensures f.Text? && AllWhitespace(f.contents) ==> r.None?
  {
    match f
    case Text(s) => ParsePort(Trim(s))
    case _ => None
  }

  /** `read_port_from_file().unwrap_or(1116)`. */
  function InitialCandidate(f: DatFile): (p: Port)
    ensures LoadPort(f).Some? ==> p == LoadPort(f).value
    ensures LoadPort(f).None? ==> p == DEFAULT_PORT
  {
    LoadPort(f).GetOr(DEFAULT_PORT)
  }

  /** The save condition as written: the port moved, or `Path::exists` is false. */
  predicate NeedsSave(f: DatFile, initial: Port, port: Port)
    ensures f.Missing? ==> NeedsSave(f, initial, port)
    ensures NeedsSave(f, initial, port) ==> port != initial || LoadPort(f).None?
  {
    port != initial || f.Missing?
  }

  /** The file after `save_port_to_file(port)`; a failed write leaves it as it was. */
  function AfterSave(f: DatFile, port: Port, writeOk: bool): DatFile {
    if writeOk then Text(FormatPort(port)) else f
  }

  /** The whole boot decision: the outcome and the state file afterwards. */
  function BootResult(f: DatFile, occupied: set<Port>, writeOk: bool): (r: (DatFile, BootOutcome))
    ensures r.1.Started? ==> InitialCandidate(f) <= r.1.port && r.1.port !in occupied
    ensures r.1.NoFreePort? <==> forall p: Port :: InitialCandidate(f) <= p ==> p in occupied
    ensures !(r.1.Started? && r.1.save == Saved) ==> r.0 == f
    ensures r.1.Started? && r.1.save == Saved ==> r.0 == Text(FormatPort(r.1.port))
  {
    var initial := InitialCandidate(f);
    match LowestFree(initial, occupied)
    case None => (f, NoFreePort)
    case Some(port) =>
      if NeedsSave(f, initial, port) then
        (AfterSave(f, port, writeOk), Started(port, if writeOk then Saved else SaveFailed))
      else
        (f, Started(port, NotAttempted))
  }

  /** The process's view of the state file, which `main` reads and may overwrite. */
  class PortStore {
    var file: DatFile

    constructor (initial: DatFile)
      ensures file == initial
    {
      file := initial;
    }

    /** `read_port_from_file`. */
    method ReadPort() returns (r: Option<Port>)
      ensures r == LoadPort(file)
      ensures r.Some? <==> file.Text? && ParsePort(Trim(file.contents)).Some?
    {
      match file
      case Text(s) => r := ParsePort(Trim(s));
      case _ => r := None;
    }

    /** `Path::new("wei-server-mcp.dat").exists()`. */
    method Exists() returns (b: bool)
      ensures b <==> !file.Missing?
    {
      b := !file.Missing?;
    }

    /** `save_port_to_file`: `writeOk` is whether the filesystem accepts the write. */
    method SavePort(port: Port, writeOk: bool) returns (ok: bool)
      modifies this
      ensures ok == writeOk
      ensures file == AfterSave(old(file), port, writeOk)
    {
      ok := writeOk;
      if writeOk {
        file := Text(FormatPort(port));
      }
    }

    /** Lines 59-77 of `main`, with the search that reports an exhausted range. */
    method Boot(occupied: set<Port>, writeOk: bool) returns (outcome: BootOutcome)
      modifies this
      ensures (file, outcome) == BootResult(old(file), occupied, writeOk)
    {
      var stored := ReadPort();
      var initial := stored.GetOr(DEFAULT_PORT);
      var found := FindAvailablePort(initial, occupied);
      if found.None? {
        return NoFreePort;
      }
      var port := found.value;
      var present := Exists();
      if port != initial || !present {
        var ok := SavePort(port, writeOk);
        outcome := Started(port, if ok then Saved else SaveFailed);
      } else {
        outcome := Started(port, NotAttempted);
      }
    }
  }

  // ---------------------------------------------------------------------------
  // properties of the boot decision

  /** The server port is the lowest free port at or above the initial candidate. */
  lemma BootPicksLowestFree(f: DatFile, occupied: set<Port>, writeOk: bool)
    ensures var (_, o) := BootResult(f, occupied, writeOk);
      && (o.Started? <==> exists p: Port :: InitialCandidate(f) <= p && p !in occupied)
      && (o.Started? ==> InitialCandidate(f) <= o.port && o.port !in occupied)
      && (o.Started? ==> forall p: Port :: InitialCandidate(f) <= p < o.port ==> p in occupied)
  {
    var (_, o) := BootResult(f, occupied, writeOk);
    if !o.Started? {
      assert forall p: Port :: InitialCandidate(f) <= p ==> p in occupied;
    }
  }

  /** A save is attempted exactly when the port moved or the file is missing. */
  lemma BootSavesIff(f: DatFile, occupied: set<Port>, writeOk: bool)
    ensures var (f', o) := BootResult(f, occupied, writeOk);
      && (o.Started? && o.save != NotAttempted <==>
            o.Started? && (o.port != InitialCandidate(f) || f.Missing?))
      && (o.Started? && o.save == NotAttempted ==> f' == f)
      && (o.NoFreePort? ==> f' == f)
  {
  }

  /** A file written by `save_port_to_file(p)` loads as `p`. */
  lemma LoadSavedPort(p: Port)
    ensures LoadPort(Text(FormatPort(p))) == Some(p)
  {
    ParseFormatRoundTrip(p);
    TrimDigits(FormatPort(p));
  }

  /**
   * After a boot that started the server, the file reads back as the server
   * port whenever it was missing or held a valid port before.
   */
  lemma BootPersistsPort(f: DatFile, occupied: set<Port>)
    requires f.Missing? || LoadPort(f).Some?
    ensures var (f', o) := BootResult(f, occupied, true);
      o.Started? ==> LoadPort(f') == Some(o.port)
  {
    var (f', o) := BootResult(f, occupied, true);
    if o.Started? {
      if o.save == Saved {
        assert f' == Text(FormatPort(o.port));
        LoadSavedPort(o.port);
      } else {
        assert f' == f && o.port == InitialCandidate(f);
      }
    }
  }

  /** Whatever the file held before, once the port is saved the file loads as the server port. */
  lemma BootSavedPortLoads(f: DatFile, occupied: set<Port>)
    ensures var (f', o) := BootResult(f, occupied, true);
      o.Started? && o.save == Saved ==> LoadPort(f') == Some(o.port)
  {
    var (f', o) := BootResult(f, occupied, true);
    if o.Started? && o.save == Saved {
      LoadSavedPort(o.port);
    }
  }

  /**
   * A file that exists but holds no valid port is not rewritten when 1116 is
   * free: the server starts on 1116 and the file still reads as no port.
   */
  lemma CorruptFileKept(f: DatFile, occupied: set<Port>, writeOk: bool)
    requires !f.Missing? && LoadPort(f).None?
    requires DEFAULT_PORT !in occupied
    ensures BootResult(f, occupied, writeOk) == (f, Started(DEFAULT_PORT, NotAttempted))
    ensures LoadPort(BootResult(f, occupied, writeOk).0) != Some(DEFAULT_PORT)
  {
  }

  /** No state file, 1116 free: the server binds 1116 and the file then holds "1116". */
  lemma FirstBootExample()
    ensures BootResult(Missing, {}, true) == (Text("1116"), Started(1116, Saved))
  {
    Writes1116();
  }

  /** The file holds "1116" but 1116 is taken and 1117 free: the server binds 1117 and the file is rewritten to "1117". */
  lemma MovedPortExample()
    ensures BootResult(Text("1116"), {1116}, true) == (Text("1117"), Started(1117, Saved))
  {
    var f: DatFile := Text("1116");
    assert InitialCandidate(f) == 1116 by { LoadsAs1116(); }
    assert LowestFree(1116, {1116}) == Some(1117);
    assert BootResult(f, {1116}, true) == (Text(FormatPort(1117)), Started(1117, Saved));
    Writes1117();
  }

  lemma Writes1116()
    ensures FormatPort(1116) == "1116"
  {
    FormatOfDecimalValue("1116");
    FourDigits("1116");
  }

  lemma Writes1117()
    ensures FormatPort(1117) == "1117"
  {
    FormatOfDecimalValue("1117");
    FourDigits("1117");
  }

  lemma LoadsAs1116()
    ensures LoadPort(Text("1116")) == Some(1116)
  {
    Writes1116();
    LoadSavedPort(1116);
  }

  lemma FourDigits(s: string)
    requires |s| == 4 && AllDigits(s)
    ensures DecimalValue(s) ==
      DigitValue(s[0]) * 1000 + DigitValue(s[1]) * 100 + DigitValue(s[2]) * 10 + DigitValue(s[3])
  {
    var s3, s2, s1 := s[..3], s[..2], s[..1];
    assert s3[..2] == s2 && s2[..1] == s1 && s1[..0] == [];
    assert DecimalValue(s1) == DigitValue(s[0]);
    assert DecimalValue(s2) == DigitValue(s[0]) * 10 + DigitValue(s[1]);
    assert DecimalValue(s3) == DecimalValue(s2) * 10 + DigitValue(s[2]);
  }

  /**
   * The boot as written, in a debug build: the search never returns `None`,
   * so where `BootResult` reports that no port is free, the process panics
   * in the search instead, before anything is saved.
   */
  function BootResultAsWritten(f: DatFile, occupied: set<Port>, writeOk: bool): (r: (DatFile, BootOutcome))
    ensures r.1 != NoFreePort
    ensures r.1 == Panicked <==> forall p: Port :: InitialCandidate(f) <= p ==> p in occupied
    ensures r.1 == Panicked ==> r.0 == f
    ensures r.1 != Panicked ==> r == BootResult(f, occupied, writeOk)
  {
    var (f', o) := BootResult(f, occupied, writeOk);
    if o.NoFreePort? then (f, Panicked) else (f', o)
  }

  /** With every port from 65535 on taken and 65535 stored, the boot as written panics. */
  lemma BootAsWrittenPanicExample()
    ensures BootResultAsWritten(Text("65535"), {MAX_PORT}, true) == (Text("65535"), Panicked)
    ensures BootResult(Text("65535"), {MAX_PORT}, true) == (Text("65535"), NoFreePort)
  {
    var f: DatFile := Text("65535");
    assert InitialCandidate(f) == MAX_PORT by {
      assert Trim("65535") == "65535" by { TrimDigits("65535"); }
      ParseRejects("");
    }
  }

  // ---------------------------------------------------------------------------
  // the evidently intended save condition

  /** Save when the port moved or no valid port was loaded (a missing file loads none). */
  predicate NeedsSaveIntended(f: DatFile, initial: Port, port: Port) {
    port != initial || LoadPort(f).None?
  }

  function BootResultIntended(f: DatFile, occupied: set<Port>, writeOk: bool): (DatFile, BootOutcome) {
    var initial := InitialCandidate(f);
    match LowestFree(initial, occupied)
    case None => (f, NoFreePort)
    case Some(port) =>
      if NeedsSaveIntended(f, initial, port) then
        (AfterSave(f, port, writeOk), Started(port, if writeOk then Saved else SaveFailed))
      else
        (f, Started(port, NotAttempted))
  }

  /** With the intended condition, a successful boot always leaves the server port on record. */
  lemma BootIntendedPersistsPort(f: DatFile, occupied: set<Port>)
    ensures var (f', o) := BootResultIntended(f, occupied, true);
      o.Started? ==> LoadPort(f') == Some(o.port)
  {
    var (f', o) := BootResultIntended(f, occupied, true);
    if o.Started? && o.save == Saved {
      LoadSavedPort(o.port);
    }
  }
}
