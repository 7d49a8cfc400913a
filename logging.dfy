/**
 * The two pure helpers of the server's entry point (pumpkin/src/main.rs):
 * masking a peer address before it is logged, and translating the
 * configuration's log level into the logging crate's level.
 */
module Logging {

  /** A character that address scrubbing keeps: the separators of IPv4 and IPv6 text. */
  predicate IsSeparator(ch: char) {
    ch == '.' || ch == ':'
  }

  /**
   * scrub_address: with scrubbing on (the configuration's scrub_ips flag, a
   * parameter here), every character that is not a separator becomes 'x';
   * with scrubbing off the address is returned as it is.
   */
  function ScrubAddress(ip: string, scrubIps: bool): (r: string)
    ensures |r| == |ip|
    ensures !scrubIps ==> r == ip
    ensures scrubIps ==> forall i :: 0 <= i < |ip| ==>
      r[i] == (if IsSeparator(ip[i]) then ip[i] else 'x')
  {
    if !scrubIps || ip == [] then ip
    else [if IsSeparator(ip[0]) then ip[0] else 'x'] + ScrubAddress(ip[1..], scrubIps)
  }

  /** Scrubbing an already scrubbed address changes nothing. */
  lemma ScrubIdempotent(ip: string, scrubIps: bool)
    ensures ScrubAddress(ScrubAddress(ip, scrubIps), scrubIps) == ScrubAddress(ip, scrubIps)
  {
    var once := ScrubAddress(ip, scrubIps);
    var twice := ScrubAddress(once, scrubIps);
    assert |twice| == |once|;
    forall i | 0 <= i < |once| ensures twice[i] == once[i] {
    }
  }

  /** A scrubbed address consists of separators and 'x' only. */
  lemma ScrubbedAlphabet(ip: string)
    ensures forall i :: 0 <= i < |ip| ==>
      var ch := ScrubAddress(ip, true)[i]; ch == '.' || ch == ':' || ch == 'x'
  {
  }

  /**
   * Scrubbing hides everything but the shape: two addresses with the same
   * length and the same separators at the same places scrub to the same text.
   */
  lemma ScrubRevealsOnlySeparators(a: string, b: string)
    requires |a| == |b|
    requires forall i :: 0 <= i < |a| ==> (IsSeparator(a[i]) || IsSeparator(b[i]) ==> a[i] == b[i])
    ensures ScrubAddress(a, true) == ScrubAddress(b, true)
  {
    var sa, sb := ScrubAddress(a, true), ScrubAddress(b, true);
    forall i | 0 <= i < |a| ensures sa[i] == sb[i] {
    }
  }

  /** The log level of the server's configuration (the pumpkin_config crate). */
  datatype ConfigLevel = ConfigOff | ConfigError | ConfigWarn | ConfigInfo | ConfigDebug | ConfigTrace

  /** The log level of the logging crate. */
  datatype LevelFilter = Off | Error | Warn | Info | Debug | Trace

  /** convert_logger_filter: each configured level to the logging level of the same name. */
  function ConvertLoggerFilter(level: ConfigLevel): (r: LevelFilter)
  {
    match level
    case ConfigOff => Off
    case ConfigError => Error
    case ConfigWarn => Warn
    case ConfigInfo => Info
    case ConfigDebug => Debug
    case ConfigTrace => Trace
  }

  /** Verbosity rank of a configured level, in declaration order (Off lowest). */
  function ConfigRank(level: ConfigLevel): (n: nat)
    ensures n <= 5
  {
    match level
    case ConfigOff => 0
    case ConfigError => 1
    case ConfigWarn => 2
    case ConfigInfo => 3
    case ConfigDebug => 4
    case ConfigTrace => 5
  }

  /** Verbosity rank of a logging level, in the logging crate's order (Off lowest). */
  function FilterRank(level: LevelFilter): (n: nat)
    ensures n <= 5
  {
    match level
    case Off => 0
    case Error => 1
    case Warn => 2
    case Info => 3
    case Debug => 4
    case Trace => 5
  }

  /** Independent reference for the mapping: the logging level of the same verbosity rank. */
  function FilterOfRank(n: nat): (r: LevelFilter)
    requires n <= 5
    ensures FilterRank(r) == n
  {
    if n == 0 then Off
    else if n == 1 then Error
    else if n == 2 then Warn
    else if n == 3 then Info
    else if n == 4 then Debug
    else Trace
  }

  /** The conversion keeps the verbosity rank, so it keeps the order of levels too. */
  lemma ConvertKeepsRank(level: ConfigLevel)
    ensures FilterRank(ConvertLoggerFilter(level)) == ConfigRank(level)
    ensures ConvertLoggerFilter(level) == FilterOfRank(ConfigRank(level))
  {
  }

  /** The conversion is one-to-one ... */
  lemma ConvertInjective(a: ConfigLevel, b: ConfigLevel)
    ensures ConvertLoggerFilter(a) == ConvertLoggerFilter(b) ==> a == b
  {
  }

  /** ... and onto: every logging level is the image of some configured level. */
  lemma ConvertSurjective(f: LevelFilter)
    ensures exists level :: ConvertLoggerFilter(level) == f
  {
    match f
    case Off => assert ConvertLoggerFilter(ConfigOff) == f;
    case Error => assert ConvertLoggerFilter(ConfigError) == f;
    case Warn => assert ConvertLoggerFilter(ConfigWarn) == f;
    case Info => assert ConvertLoggerFilter(ConfigInfo) == f;
    case Debug => assert ConvertLoggerFilter(ConfigDebug) == f;
    case Trace => assert ConvertLoggerFilter(ConfigTrace) == f;
  }
}
