// Vocabulary shared by the models: optional values, log levels and log messages.
module Common {

  datatype Option<+T> = None | Some(value: T)

  // LEVELS: two levels are the same when both the number and the text agree.
  datatype Level = Level(value: int, text: string)

  const DEBUG := Level(100, "DEBUG")
  const INFO := Level(300, "INFO")
  const WARNING := Level(500, "WARNING")
  const ERROR := Level(800, "ERROR")
  const FATAL := Level(1000, "FATAL")

  // The part of a LogMessage that the logging pipeline hands on: its level, its text, and whether
  // bgFatal has appended its closing lines (whose wording is not modelled).
  datatype Message = Message(level: Level, text: string, closing: bool)

  // internal::wasFatal
  predicate WasFatal(level: Level) {
    level.value >= FATAL.value
  }
}
