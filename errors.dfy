/**
 * The error sink shared by every phase. Reports are appended to a log instead
 * of being printed; scanner and parse errors raise the had-error flag that
 * gates the later phases, resolver warnings do not, and runtime errors raise
 * their own flag.
 */
module Errors {
  import opened Tokens

  /** The labels the source prints in front of each kind of report. */
  datatype Severity = SYNTAX_ERROR | ERROR | WARNING | RUNTIME_ERROR

  /** One report: its severity, line, column, the width of the marked text and the message. */
  datatype Diagnostic = Diagnostic(severity: Severity, line: int, column: int, length: int, message: string)

  /** The report a scanner error produces: it marks the text from `start` to `current` on the line starting at `lineStart`. */
  function ScanDiagnostic(line: int, lineStart: int, start: int, current: int, message: string): Diagnostic {
    Diagnostic(SYNTAX_ERROR, line, current - lineStart, current - start, message)
  }

  /** The report a token-located error produces. */
  function AtToken(severity: Severity, token: Token, message: string): Diagnostic {
    Diagnostic(severity, token.position.line, token.position.column, token.length, message)
  }

  class ErrorLog {
    var log: seq<Diagnostic>
    var hadError: bool
    var hadRuntimeError: bool

    constructor ()
      ensures log == [] && !hadError && !hadRuntimeError
    {
      log := [];
      hadError := false;
      hadRuntimeError := false;
    }

    method ScannerError(line: int, lineStart: int, start: int, current: int, message: string)
      modifies this
      ensures log == old(log) + [ScanDiagnostic(line, lineStart, start, current, message)]
      ensures hadError && hadRuntimeError == old(hadRuntimeError)
    {
      log := log + [ScanDiagnostic(line, lineStart, start, current, message)];
      hadError := true;
    }

    method ParseError(token: Token, message: string)
      modifies this
      ensures log == old(log) + [AtToken(ERROR, token, message)]
      ensures hadError && hadRuntimeError == old(hadRuntimeError)
    {
      log := log + [AtToken(ERROR, token, message)];
      hadError := true;
    }

    /** A resolver warning is logged but leaves both flags alone. */
    method ResolverError(token: Token, message: string)
      modifies this
      ensures log == old(log) + [AtToken(WARNING, token, message)]
      ensures hadError == old(hadError) && hadRuntimeError == old(hadRuntimeError)
    {
      log := log + [AtToken(WARNING, token, message)];
    }

    method RuntimeError(token: Token, message: string)
      modifies this
      ensures log == old(log) + [AtToken(RUNTIME_ERROR, token, message)]
      ensures hadError == old(hadError) && hadRuntimeError
    {
      log := log + [AtToken(RUNTIME_ERROR, token, message)];
      hadRuntimeError := true;
    }
  }
}
