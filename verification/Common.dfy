/** Datatypes shared by the models of the Host's commit protocols. */
module Common {

  /** Identifiers, tokens and revisions are only compared, so they are numbers. */
  type Id = int

  /** The empty string. */
  const NO_ID: Id := 0

  datatype Option<+T> = None | Some(value: T)

  /** How an event transaction ended (internal/persistence/store.go:592-595).
      The caller of an unknown one sees only ErrEventCommitOutcomeUnknown;
      whether it landed is known to the database alone. */
  datatype Commit = Committed | RolledBack | UnknownLanded | UnknownLost {

    /** The transaction's writes are durable. */
    predicate Lands() {
      Committed? || UnknownLanded?
    }

    /** The caller was told that the outcome is unknown. */
    predicate Unknown() {
      UnknownLanded? || UnknownLost?
    }
  }

  /** How any other database write goes for its caller, and whether it happened. */
  datatype Write = Written | FailedLanded | FailedLost {
    predicate Lands() {
      !FailedLost?
    }
  }
}
