/** The text the scaffold writes: the fixed file bodies, the Cargo.toml suffix,
    and the INX template rendered with Rust's positional `format!` rules
    (src/main.rs:13-137, 291, 355-362). */
module Templates {
  import opened Text

  // ------------------------------------------------------------ constants

  /** Appended to Cargo.toml, followed by the quoted driver type. */
  const CARGO_TOML_ADDITION: string :=
    "\n" +
    "[lib]\n" +
    "crate-type = [\"cdylib\"]\n" +
    "\n" +
    "[profile.dev]\n" +
    "panic = \"abort\"\n" +
    "\n" +
    "[profile.release]\n" +
    "panic = \"abort\"\n" +
    "\n" +
    "[package.metadata.wdk.driver-model]\n" +
    "driver-type = "

  /** Written to Makefile.toml. */
  const MAKEFILE_TOML_CONTENT: string :=
    "extend = \"target/rust-driver-makefile.toml\"\n" +
    "\n" +
    "[config]\n" +
    "load_script = '''\n" +
    "#!@rust\n" +
    "//! ```cargo\n" +
    "//! [dependencies]\n" +
    "//! wdk-build = \"0.3.0\"\n" +
    "//! ```\n" +
    "#![allow(unused_doc_comments)]\n" +
    "\n" +
    "wdk_build::cargo_make::load_rust_driver_makefile()?\n" +
    "'''\n"

  /** Written to .cargo/config.toml. */
  const CONFIG_TOML_CONTENT: string :=
    "[build]\n" +
    "rustflags = [\"-C\", \"target-feature=+crt-static\"]\n"

  /** Written to build.rs. */
  const BUILD_RS_CONTENT: string :=
    "fn main() -> Result<(), wdk_build::ConfigError> {\n" +
    "   wdk_build::configure_wdk_binary_build()\n" +
    "}\n"

  /** Written to src/lib.rs after truncating it. */
  const LIB_RS_CONTENT: string :=
    "// New Windows Driver Crate\n" +
    "#![no_std]\n" +
    "\n" +
    "#[cfg(not(test))]\n" +
    "extern crate wdk_panic;\n" +
    "\n" +
    "use wdk_alloc::WdkAllocator;\n" +
    "\n" +
    "#[global_allocator]\n" +
    "static GLOBAL_ALLOCATOR: WdkAllocator = WdkAllocator;\n" +
    "\n" +
    "use wdk_sys::*;\n" +
    "\n" +
    "#[export_name = \"DriverEntry\"]\n" +
    "pub unsafe extern \"system\" fn driver_entry(_driver: PDRIVER_OBJECT, _registry_path: PCUNICODE_STRING) -> NTSTATUS\n" +
    "{\n" +
    "\tSTATUS_SUCCESS\n" +
    "}\n"

  // ------------------------------------------------------ segment rendering

  /** One piece of a format template: literal text, or the positional
      argument `{0}` or `{1}`. */
  datatype Segment = Lit(text: string) | Slot0 | Slot1

  /** What one segment contributes to the output. */
  function Piece(seg: Segment, arg0: string, arg1: string): string {
    match seg
    case Lit(s) => s
    case Slot0 => arg0
    case Slot1 => arg1
  }

  /** The template with every segment replaced by its piece. */
  function Render(t: seq<Segment>, arg0: string, arg1: string): string
    decreases |t|
  {
    if t == [] then [] else Piece(t[0], arg0, arg1) + Render(t[1..], arg0, arg1)
  }

  /** Rendering distributes over concatenation of templates. */
  lemma {:induction false} RenderAppend(t1: seq<Segment>, t2: seq<Segment>, arg0: string, arg1: string)
    ensures Render(t1 + t2, arg0, arg1) == Render(t1, arg0, arg1) + Render(t2, arg0, arg1)
    decreases |t1|
  {
    if t1 != [] {
      assert (t1 + t2)[1..] == t1[1..] + t2;
      RenderAppend(t1[1..], t2, arg0, arg1);
    } else {
      assert t1 + t2 == t2;
    }
  }

  /** Rendering is uniform: at every position the output holds exactly the
      piece of that segment, between the renderings of what precedes and what
      follows it. */
  lemma RenderAt(t: seq<Segment>, k: nat, arg0: string, arg1: string)
    requires k < |t|
    ensures t[k].Lit? ==>
              Render(t, arg0, arg1) == Render(t[..k], arg0, arg1) + t[k].text + Render(t[k + 1..], arg0, arg1)
    ensures t[k].Slot0? ==>
              Render(t, arg0, arg1) == Render(t[..k], arg0, arg1) + arg0 + Render(t[k + 1..], arg0, arg1)
    ensures t[k].Slot1? ==>
              Render(t, arg0, arg1) == Render(t[..k], arg0, arg1) + arg1 + Render(t[k + 1..], arg0, arg1)
  {
    assert t == t[..k] + [t[k]] + t[k + 1..];
    RenderAppend(t[..k] + [t[k]], t[k + 1..], arg0, arg1);
    RenderAppend(t[..k], [t[k]], arg0, arg1);
    assert Render([t[k]], arg0, arg1) == Piece(t[k], arg0, arg1) + Render([], arg0, arg1);
  }

  // --------------------------------------------------- Rust format strings

  /** Compile errors of a format string, in the subset used here. */
  datatype FormatError = BadPlaceholder | UnmatchedClose

  function Prefix(p: string, r: Result<string, FormatError>): Result<string, FormatError> {
    if r.Ok? then Ok(p + r.value) else r
  }

  /** `format!(f, arg0, arg1)`: `{{` and `}}` stand for one brace, `{0}` and
      `{1}` for the positional arguments; any other `{` or a lone `}` is an
      error. */
  function Format(f: string, arg0: string, arg1: string): Result<string, FormatError>
    decreases |f|
  {
    if f == [] then Ok([])
    else if f[0] == '{' then
      if |f| >= 2 && f[1] == '{' then Prefix("{", Format(f[2..], arg0, arg1))
      else if |f| >= 3 && f[1] == '0' && f[2] == '}' then Prefix(arg0, Format(f[3..], arg0, arg1))
      else if |f| >= 3 && f[1] == '1' && f[2] == '}' then Prefix(arg1, Format(f[3..], arg0, arg1))
      else Err(BadPlaceholder)
    else if f[0] == '}' then
      if |f| >= 2 && f[1] == '}' then Prefix("}", Format(f[2..], arg0, arg1))
      else Err(UnmatchedClose)
    else Prefix([f[0]], Format(f[1..], arg0, arg1))
  }

  /** One literal character as it is written in a format string. */
  function EscapeChar(c: char): string {
    if c == '{' then "{{" else if c == '}' then "}}" else [c]
  }

  /** Literal text as it is written in a format string: braces doubled. */
  function EscapeBraces(s: string): string {
    if s == [] then [] else EscapeChar(s[0]) + EscapeBraces(s[1..])
  }

  /** The format string a template is written as in the source. */
  function FormatString(t: seq<Segment>): string
    decreases |t|
  {
    if t == [] then []
    else
      (match t[0]
       case Lit(s) => EscapeBraces(s)
       case Slot0 => "{0}"
       case Slot1 => "{1}") + FormatString(t[1..])
  }

  lemma FormatEscapedChar(c: char, tail: string, arg0: string, arg1: string)
    ensures Format(EscapeChar(c) + tail, arg0, arg1) == Prefix([c], Format(tail, arg0, arg1))
  {
    var f := EscapeChar(c) + tail;
    if c == '{' || c == '}' {
      assert f[2..] == tail;
    } else {
      assert f[1..] == tail;
    }
  }

  lemma {:induction false} FormatEscaped(s: string, rest: string, arg0: string, arg1: string)
    ensures Format(EscapeBraces(s) + rest, arg0, arg1) == Prefix(s, Format(rest, arg0, arg1))
    decreases |s|
  {
    if s == [] {
      assert EscapeBraces(s) + rest == rest;
      var r := Format(rest, arg0, arg1);
      if r.Ok? {
        assert s + r.value == r.value;
      }
    } else {
      var tail := EscapeBraces(s[1..]) + rest;
      assert EscapeBraces(s) + rest == EscapeChar(s[0]) + tail;
      FormatEscapedChar(s[0], tail, arg0, arg1);
      FormatEscaped(s[1..], rest, arg0, arg1);
      var r := Format(rest, arg0, arg1);
      if r.Ok? {
        assert [s[0]] + (s[1..] + r.value) == s + r.value;
      }
    }
  }

  /** Formatting the source's format string gives exactly the segment
      rendering: doubled braces come out single, `{0}`/`{1}` come out as the
      arguments, and there is no format error. */
  lemma {:induction false} FormatMatchesRender(t: seq<Segment>, arg0: string, arg1: string)
    ensures Format(FormatString(t), arg0, arg1) == Ok(Render(t, arg0, arg1))
    decreases |t|
  {
    if t != [] {
      var rest := FormatString(t[1..]);
      FormatMatchesRender(t[1..], arg0, arg1);
      match t[0]
      case Lit(s) =>
        FormatEscaped(s, rest, arg0, arg1);
      case Slot0 =>
        var f := "{0}" + rest;
        assert f[3..] == rest;
      case Slot1 =>
        var f := "{1}" + rest;
        assert f[3..] == rest;
    }
  }

  /** The INX template of the INX_CONTENT macro, split at its `{0}` and `{1}`
      placeholders; literal text already has `{{` and `}}` undoubled. */
  const INX_TEMPLATE: seq<Segment> := [
    Lit(";===================================================================\n" +
        "; Copyright (c) [Year], [Author Name]\n" +
        ";\n" +
        ";Module Name:\n" +
        ";    "),
    Slot0,
    Lit(".inf\n" +
        ";===================================================================\n" +
        "\n" +
        "[Version]\n" +
        "Signature   = \"$WINDOWS NT$\"\n" +
        "Class       = SoftwareDevice\n" +
        "ClassGuid   = {62f9c741-b25a-46ce-b54c-9bccce08b6f2}\n" +
        "Provider    = %ProviderString%\n" +
        "PnpLockDown = 1\n" +
        "\n" +
        "[DestinationDirs]\n" +
        "DefaultDestDir = 13\n" +
        "\n" +
        "[SourceDisksNames]\n" +
        "1 = %DiskId1%,,,\"\"\n" +
        "\n" +
        "[SourceDisksFiles]\n"),
    Slot0,
    Lit(".sys  = 1,,\n" +
        "\n" +
        "\n" +
        "; ================= Install section =================\n" +
        "\n" +
        "[Manufacturer]\n" +
        "%StdMfg%=Standard,NT$ARCH$.10.0...16299\n" +
        "\n" +
        "[Standard.NT$ARCH$.10.0...16299]\n" +
        "%"),
    Slot1,
    Lit(".DeviceDesc%="),
    Slot1,
    Lit("_Device, root\\"),
    Slot0,
    Lit("\n" +
        "\n" +
        "["),
    Slot1,
    Lit("_Device.NT$ARCH$]\n" +
        "CopyFiles=Drivers_Dir\n" +
        "\n" +
        "[Drivers_Dir]\n"),
    Slot0,
    Lit(".sys\n" +
        "\n" +
        "; ================= Service installation =================\n" +
        "["),
    Slot1,
    Lit("_Device.NT$ARCH$.Services]\n" +
        "AddService = "),
    Slot0,
    Lit(", %SPSVCINST_ASSOCSERVICE%, "),
    Slot1,
    Lit("_Service_Inst\n" +
        "\n" +
        "["),
    Slot1,
    Lit("_Service_Inst]\n" +
        "DisplayName    = %"),
    Slot1,
    Lit(".SVCDESC%\n" +
        "ServiceType    = 1               ; SERVICE_KERNEL_DRIVER\n" +
        "StartType      = 3               ; SERVICE_DEMAND_START\n" +
        "ErrorControl   = 1               ; SERVICE_ERROR_NORMAL\n" +
        "ServiceBinary  = %13%\\"),
    Slot0,
    Lit(".sys\n" +
        "\n" +
        "; ================= Strings =================\n" +
        "[Strings]\n" +
        "SPSVCINST_ASSOCSERVICE = 0x00000002\n" +
        "ProviderString         = \"SampleProvider\"\n" +
        "StdMfg                 = \"(Standard system devices)\"\n" +
        "DiskId1                = \"sample\"\n" +
        "ClassName              = \"sample\"\n"),
    Slot1,
    Lit(".DeviceDesc      = \"sample device\"\n"),
    Slot1,
    Lit(".SVCDESC         = \"sample service\"\n")
  ]

  // ----------------------------------------------------------- file texts

  /** What the two `write_all` calls append to Cargo.toml (src/main.rs:289-291). */
  function CargoTomlSuffix(driverType: string): string {
    CARGO_TOML_ADDITION + "\"" + driverType + "\"\n"
  }

  /** The manifest gains the fixed block and then the quoted driver type on
      one newline-terminated line, whatever it held before. */
  lemma ManifestTail(previous: string, driverType: string)
    ensures var m := previous + CargoTomlSuffix(driverType);
      m[..|previous|] == previous &&
      m[|previous|..|previous| + |CARGO_TOML_ADDITION|] == CARGO_TOML_ADDITION &&
      m[|previous| + |CARGO_TOML_ADDITION|..] == "\"" + driverType + "\"\n"
  {
    var m := previous + CargoTomlSuffix(driverType);
    assert m == previous + CARGO_TOML_ADDITION + ("\"" + driverType + "\"\n");
  }

  /** The INX text for a crate (src/main.rs:360-362). */
  function InxText(crateName: string): string {
    Render(INX_TEMPLATE, ToLower(crateName), ToUpper(crateName))
  }

  /** For a crate name that is already lower case, the INX text is the
      template's format string formatted with the name itself for `{0}` and
      its upper-case form for `{1}`. */
  lemma InxForLowerName(crateName: string)
    requires IsLower(crateName)
    ensures Format(FormatString(INX_TEMPLATE), crateName, ToUpper(crateName)) == Ok(InxText(crateName))
  {
    LowerFacts(crateName);
    FormatMatchesRender(INX_TEMPLATE, crateName, ToUpper(crateName));
  }
}
