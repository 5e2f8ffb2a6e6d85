/**
 * The backlight module: two handles on the brightness files of a device,
 * the cached maximum, the derived percentage, and the operations that
 * update them (the change-event handler and the scroll-command handler),
 * plus the dispatch that decides which format tags the module renders.
 */
module Backlight {
  import opened Wrappers
  import opened BacklightTokens
  import opened Brightness

  /**
   * The files the module sees: each existing path maps to the number its
   * text parses to. The backlight files hold one number each.
   */
  class FileSystem {
    var files: map<string, real>

    constructor (files: map<string, real>)
      ensures this.files == files
    {
      this.files := files;
    }
  }

  /** Message of the error thrown when a handle is bound to a missing file. */
  function MissingFile(path: string): string
  {
    "The file '" + path + "' does not exist"
  }

  /**
   * A handle on one numeric file. It carries only the path; the value lives
   * in the file it names.
   */
  class BrightnessHandle {
    var path: string

    constructor ()
      ensures path == ""
    {
      path := "";
    }

    /** Binds the handle to `p`, or fails and keeps the old path if `p` does not exist. */
    method Filepath(p: string, fs: FileSystem) returns (r: Outcome)
      modifies this
      ensures r.Pass? <==> p in fs.files
      ensures r.Fail? ==> r.error == MissingFile(p)
      ensures path == (if p in fs.files then p else old(path))
    {
      if p !in fs.files {
        return Fail(MissingFile(p));
      }
      path := p;
      return Pass;
    }

    /** The number the file parses to; a file that cannot be read yields 0. */
    function Read(fs: FileSystem): (v: real)
      reads this, fs
      ensures path in fs.files ==> v == fs.files[path]
      ensures path !in fs.files ==> v == 0.0
    {
      if path in fs.files then fs.files[path] else 0.0
    }

    /**
     * Rewrites the file with `v` truncated to an integer. When the file
     * cannot be opened (`canOpen` false) the write is silently dropped.
     */
    method Write(v: real, fs: FileSystem, canOpen: bool)
      modifies fs
      ensures canOpen ==> fs.files == old(fs.files)[path := Truncate(v) as real]
      ensures canOpen ==> Read(fs) == Truncate(v) as real
      ensures !canOpen ==> fs.files == old(fs.files)
    {
      if canOpen {
        fs.files := fs.files[path := Truncate(v) as real];
      }
    }
  }

  /** The command a scroll event names, if it names one. */
  function ParseCommand(cmd: string): (r: Option<Command>)
    ensures r.Some? ==> CommandName(r.value) == cmd
    ensures r.None? ==> forall c: Command :: CommandName(c) != cmd
  {
    if cmd == EventScrollUp then Some(Increase)
    else if cmd == EventScrollDown then Some(Decrease)
    else None
  }

  /**
   * Which element a format tag renders; None means "not handled", so that
   * the formatter can try another provider.
   */
  function Build(tag: string): (r: Option<Tag>)
    ensures r.Some? ==> TagName(r.value) == tag
    ensures r.None? ==> forall t: Tag :: TagName(t) != tag
  {
    if tag == TagBar then Some(Bar)
    else if tag == TagRamp then Some(Ramp)
    else if tag == TagLabel then Some(Label)
    else None
  }

  class BacklightModule {
    /** Handle on the current-brightness file. */
    const val: BrightnessHandle
    /** Handle on the maximum-brightness file. */
    const max: BrightnessHandle
    /** The maximum read once at start-up; commands clamp against it. */
    var maxVal: real
    /** The percentage last derived by the event handler. */
    var percentage: int

    constructor (val: BrightnessHandle, max: BrightnessHandle, fs: FileSystem)
      ensures this.val == val && this.max == max
      ensures maxVal == max.Read(fs)
      ensures percentage == 0
    {
      this.val := val;
      this.max := max;
      maxVal := max.Read(fs);
      percentage := 0;
    }

    /**
     * A change of the watched file: recomputes the percentage from the
     * current value and a fresh read of the maximum file.
     */
    method OnEvent(fs: FileSystem)
      requires max.Read(fs) > 0.0
      modifies this`percentage
      ensures percentage == Percentage(val.Read(fs), max.Read(fs))
      ensures 0.0 <= val.Read(fs) <= max.Read(fs) ==> 0 <= percentage <= 100
      ensures maxVal == old(maxVal)
    {
      percentage := Percentage(val.Read(fs), max.Read(fs));
      if 0.0 <= val.Read(fs) <= max.Read(fs) {
        PercentageInRange(val.Read(fs), max.Read(fs));
      }
    }

    /**
     * A scroll command: moves the current value by 50 in its direction,
     * clamps it against the cached maximum and writes it back. Returns
     * whether the command was recognised; the percentage is left to the
     * next change event.
     */
    method Input(cmd: string, fs: FileSystem, canOpen: bool) returns (handled: bool)
      modifies fs
      ensures handled <==> ParseCommand(cmd).Some?
      ensures !handled || !canOpen ==> fs.files == old(fs.files)
      ensures handled && canOpen ==>
        fs.files == old(fs.files)[val.path := Stored(old(val.Read(fs)), maxVal, ParseCommand(cmd).value)]
      ensures handled && canOpen && maxVal >= 0.0 ==> 0.0 <= val.Read(fs) <= maxVal
      ensures percentage == old(percentage) && maxVal == old(maxVal)
    {
      var valueMod := 0.0;
      if cmd == EventScrollUp {
        valueMod := 50.0;
      } else if cmd == EventScrollDown {
        valueMod := -50.0;
      } else {
        return false;
      }

      var curVal := val.Read(fs) + valueMod;
      if curVal < 0.0 {
        curVal := 0.0;
      } else if curVal > maxVal {
        curVal := maxVal;
      }
      val.Write(curVal, fs, canOpen);
      return true;
    }
  }

  /**
   * Start-up: binds the current and maximum handles (failing on the first
   * missing file) and caches the maximum. No event has been seen yet, so the
   * percentage is 0.
   */
  method Create(valPath: string, maxPath: string, fs: FileSystem) returns (r: Result<BacklightModule>)
    ensures r.Success? <==> valPath in fs.files && maxPath in fs.files
    ensures r.Failure? ==> r.error == MissingFile(if valPath !in fs.files then valPath else maxPath)
    ensures r.Success? ==> fresh(r.value) && fresh(r.value.val) && fresh(r.value.max)
    ensures r.Success? ==> r.value.val.path == valPath && r.value.max.path == maxPath
    ensures r.Success? ==> r.value.maxVal == fs.files[maxPath] && r.value.percentage == 0
    ensures fs.files == old(fs.files)
  {
    var v := new BrightnessHandle();
    var o := v.Filepath(valPath, fs);
    if o.Fail? {
      return Failure(o.error);
    }
    var m := new BrightnessHandle();
    o := m.Filepath(maxPath, fs);
    if o.Fail? {
      return Failure(o.error);
    }
    var backlight := new BacklightModule(v, m, fs);
    return Success(backlight);
  }

  /**
   * A device whose maximum is 200 and whose value is 100: 50 percent; one
   * increase gives 150 and 75 percent; two more saturate at 200 and 100
   * percent.
   */
  method Walkthrough()
  {
    var valPath := "/sys/class/backlight/acpi_video0/brightness";
    var maxPath := "/sys/class/backlight/acpi_video0/max_brightness";
    var fs := new FileSystem(map[valPath := 100.0, maxPath := 200.0]);
    var r := Create(valPath, maxPath, fs);
    var m := r.value;
    assert m.percentage == 0;

    m.OnEvent(fs);
    PercentageHalf();
    assert m.percentage == 50;

    var handled := m.Input(EventScrollUp, fs, true);
    TruncateWhole(150);
    assert handled && m.val.Read(fs) == 150.0 && m.max.Read(fs) == 200.0;
    m.OnEvent(fs);
    assert m.percentage == Truncate(75.5) == 75;

    handled := m.Input(EventScrollUp, fs, true);
    TruncateWhole(200);
    handled := m.Input(EventScrollUp, fs, true);
    assert m.val.Read(fs) == 200.0;
    m.OnEvent(fs);
    PercentageEnds(200.0);
    assert m.percentage == 100;
  }
}
