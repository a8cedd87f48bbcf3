/**
 * `SystemCpuInfoFactory` (src/subscription_manager/cpuinfo.py): the parser
 * is chosen from the `uname -m` machine name, and an unknown machine is
 * refused before /proc/cpuinfo is read.
 */
module Factory {
  import opened Wrappers
  import opened Tokenizer
  import opened CpuinfoModels
  import X86
  import Aarch64
  import Ppc64

  /** The `BaseCpuInfo` subclasses. */
  datatype Arch = X86_64Arch | Aarch64Arch | Ppc64Arch

  /** `uname_to_cpuinfo`. */
  const UnameToCpuinfo: map<string, Arch> :=
    map["x86_64" := X86_64Arch, "aarch64" := Aarch64Arch, "ppc64" := Ppc64Arch, "ppc64le" := Ppc64Arch]

  /** The class `uname_to_cpuinfo` gives a machine name, if any. */
  function CpuinfoClass(unameMachine: string): (r: Option<Arch>)
    ensures r.Some? <==> unameMachine in {"x86_64", "aarch64", "ppc64", "ppc64le"}
    ensures unameMachine == "ppc64" || unameMachine == "ppc64le" ==> r == Some(Ppc64Arch)
    ensures unameMachine == "x86_64" <==> r == Some(X86_64Arch)
    ensures unameMachine == "aarch64" <==> r == Some(Aarch64Arch)
  {
    if unameMachine in UnameToCpuinfo then Some(UnameToCpuinfo[unameMachine]) else None
  }

  datatype FactoryError =
    | NotImplemented            // no parser for this machine
    | CannotRead                // /proc/cpuinfo could not be read
    | Unparsable(error: ParseError)

  /**
   * The decisions `from_uname_machine` takes before parsing: the machine is
   * checked first, so an unknown machine is refused whatever the file holds.
   * `procCpuinfo` is the file's text, or `None` when reading it fails.
   */
  function Dispatch(unameMachine: string, procCpuinfo: Option<string>): (r: Result<(Arch, string), FactoryError>)
    ensures CpuinfoClass(unameMachine).None? ==> r == Failure(NotImplemented)
    ensures CpuinfoClass(unameMachine).Some? && procCpuinfo.None? ==> r == Failure(CannotRead)
    ensures r.Success? ==> Some(r.value.0) == CpuinfoClass(unameMachine) && Some(r.value.1) == procCpuinfo
  {
    match CpuinfoClass(unameMachine)
    case None => Failure(NotImplemented)
    case Some(arch) =>
      match procCpuinfo
      case None => Failure(CannotRead)
      case Some(text) => Success((arch, text))
  }

  /** An unknown machine is refused without looking at the file. */
  lemma UnknownMachineIgnoresFile(unameMachine: string, a: Option<string>, b: Option<string>)
    requires unameMachine !in {"x86_64", "aarch64", "ppc64", "ppc64le"}
    ensures Dispatch(unameMachine, a) == Dispatch(unameMachine, b) == Failure(NotImplemented)
  {
  }

  /** "ppc64" and "ppc64le" are parsed alike. */
  lemma Ppc64Endianness(text: Option<string>)
    ensures Dispatch("ppc64", text) == Dispatch("ppc64le", text)
  {
  }

  /** Whether `_parse` of `arch` succeeds on `text`. */
  predicate Parses(arch: Arch, text: string) {
    match arch
    case X86_64Arch => X86.X86ParseSpec(text).Some?
    case Aarch64Arch => Aarch64.Aarch64ParseSpec(text).Some?
    case Ppc64Arch => Ppc64.Ppc64Common(Tokenize(text)).Some?
  }

  /** The state of a fresh model after `_parse` of `arch` succeeded on `text`. */
  predicate Parsed(arch: Arch, text: string, m: CpuinfoModel)
    requires Parses(arch, text)
    reads m
  {
    && m.modelNameOverride == None && m.modelOverride == None
    && match arch
       case X86_64Arch =>
         && m.fields == X86Fields
         && m.processors == X86.X86ParseSpec(text).value.processors
         && m.common == X86.X86ParseSpec(text).value.common
         && m.other == [] && m.cpuinfoData == Some(text)
       case Aarch64Arch =>
         && m.fields == Aarch64Fields
         && m.processors == Aarch64.Aarch64ParseSpec(text).value.processors
         && m.common == Aarch64.Aarch64ParseSpec(text).value.common
         && m.other == Aarch64.Aarch64ParseSpec(text).value.other
         && m.cpuinfoData == None
       case Ppc64Arch =>
         && m.fields == Ppc64Fields
         && m.processors == Ppc64.Ppc64Processors(Tokenize(text))
         && m.common == Ppc64.Ppc64Common(Tokenize(text)).value
         && m.other == [] && m.cpuinfoData == Some(text)
  }

  /**
   * The exception a failed parse raises: x86_64 unpacks every entry as
   * `key, value`; aarch64 reads `item[1]` of each; ppc64 does the first for
   * its processor entries and the second for the rest.
   */
  function ErrorOf(arch: Arch, text: string): ParseError {
    match arch
    case X86_64Arch => NotEnoughValues
    case Aarch64Arch => IndexOutOfRange
    case Ppc64Arch => Ppc64.Ppc64Error(Tokenize(text))
  }

  /**
   * `BaseCpuInfo.from_proc_cpuinfo_string`: a fresh parser of the class, fed
   * the whole text; the result is its `cpu_info` model.
   */
  method FromProcCpuinfoString(arch: Arch, procCpuinfoString: string) returns (r: Result<CpuinfoModel, ParseError>)
    ensures r.Success? <==> Parses(arch, procCpuinfoString)
    ensures r.Success? ==> fresh(r.value) && Parsed(arch, procCpuinfoString, r.value)
    ensures r.Failure? ==> r.error == ErrorOf(arch, procCpuinfoString)
  {
    var outcome: Outcome<ParseError>;
    var model: CpuinfoModel;
    match arch {
      case X86_64Arch =>
        var cpuInfo := new X86.X86_64CpuInfo();
        outcome := cpuInfo.Parse(procCpuinfoString);
        model := cpuInfo.cpuInfo;
      case Aarch64Arch =>
        var cpuInfo := new Aarch64.Aarch64CpuInfo();
        outcome := cpuInfo.Parse(procCpuinfoString);
        model := cpuInfo.cpuInfo;
      case Ppc64Arch =>
        var cpuInfo := new Ppc64.Ppc64CpuInfo();
        outcome := cpuInfo.Parse(procCpuinfoString);
        model := cpuInfo.cpuInfo;
    }
    if outcome.Fail? {
      return Failure(outcome.error);
    }
    return Success(model);
  }

  /**
   * `from_uname_machine`, with the read of /proc/cpuinfo given as its
   * outcome: the machine is looked up first, then the text is parsed.
   */
  method FromUnameMachine(unameMachine: string, procCpuinfo: Option<string>)
    returns (r: Result<CpuinfoModel, FactoryError>)
    ensures Dispatch(unameMachine, procCpuinfo).Failure? ==> r == Failure(Dispatch(unameMachine, procCpuinfo).error)
    ensures Dispatch(unameMachine, procCpuinfo).Success? ==>
              var (arch, text) := Dispatch(unameMachine, procCpuinfo).value;
              && (r.Success? <==> Parses(arch, text))
              && (r.Success? ==> fresh(r.value) && Parsed(arch, text, r.value))
              && (r.Failure? ==> r.error == Unparsable(ErrorOf(arch, text)))
  {
    if unameMachine !in UnameToCpuinfo {
      return Failure(NotImplemented);
    }
    if procCpuinfo.None? {
      return Failure(CannotRead);
    }
    var archClass := UnameToCpuinfo[unameMachine];
    var parsed := FromProcCpuinfoString(archClass, procCpuinfo.value);
    if parsed.Failure? {
      return Failure(Unparsable(parsed.error));
    }
    return Success(parsed.value);
  }
}
