/** Optional values and error-carrying results shared by every module of the model. */
module Common {

  /** Python's `None` or a value. */
  datatype Option<+T> = None | Some(value: T) {
    predicate IsFailure() { None? }
    function PropagateFailure<U>(): Option<U> requires None? { None }
    function Extract(): T requires Some? { value }
  }

  /** The exceptions the grading core raises, as values. */
  datatype Error =
    | MalformedJson      // json.loads fails, or the document lacks a key it needs (ValueError/KeyError)
    | InvalidKey         // CourseKey.from_string / UsageKey.from_string reject a string (InvalidKeyError)
    | MissingCourseKey   // the `assert len(data['blocks']) == 0` of BlockRecordList.from_json
    | IntegrityViolation // the database refuses a row that breaks the unique (course_id, user_id, usage_key)
    | NotFound           // a get() that matches no row (DoesNotExist)
    | MissingBlock       // a usage key that the block structure does not hold
    | NotSubStructure    // the ValueError of SubsectionGradeFactory._get_block_structure

  /** The end of an operation that returns nothing in the source, or the exception it raised. */
  datatype Outcome = Pass | Fail(error: Error)

  datatype Result<+T> = Ok(value: T) | Err(error: Error) {
    predicate IsFailure() { Err? }
    function PropagateFailure<U>(): Result<U> requires Err? { Err(error) }
    function Extract(): T requires Ok? { value }
  }
}
