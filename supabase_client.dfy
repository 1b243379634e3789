/** The error-message helper of the hosted-backend client (src/utils/supabaseClient.js). */
module SupabaseClient {
  import opened Wrappers
  import opened Text

  /** An error raised or returned by the backend client; its `message` may be missing. */
  datatype SupabaseError = SupabaseError(message: Option<string>)

  /** Written as two literals so that the verifier sees its first character without unfolding the whole text. */
  const PausedProjectMessage := "Cannot " + "connect to authentication service. Your Supabase project may be paused or inactive. Please check your Supabase dashboard and resume your project if needed."

  /** The message says the backend could not be reached at all. */
  predicate IsConnectivityFailure(error: Option<SupabaseError>) {
    && error.Some?
    && error.value.message.Some?
    && (Contains(error.value.message.value, "Failed to fetch")
        || Contains(error.value.message.value, "AuthRetryableFetchError"))
  }

  /** The error carries a non-empty message, i.e. `error?.message` is truthy. */
  predicate HasMessage(error: Option<SupabaseError>) {
    error.Some? && error.value.message.Some? && error.value.message.value != ""
  }

  /**
   * `handleSupabaseError(error, operation)`: connectivity failures get a fixed
   * explanation, other errors keep their own message, and an error without one
   * (including a null or undefined error) gets a generic text naming the operation,
   * `'operation'` when none is given.
   */
  function HandleSupabaseError(error: Option<SupabaseError>, operation: Option<string>): (text: string)
    ensures IsConnectivityFailure(error) ==> text == PausedProjectMessage
    ensures !IsConnectivityFailure(error) && HasMessage(error) ==> text == error.value.message.value
    ensures !HasMessage(error) ==> text == "An error occurred during " + operation.GetOr("operation")
    ensures text != ""
  {
    if IsConnectivityFailure(error) then PausedProjectMessage
    else if HasMessage(error) then error.value.message.value
    else "An error occurred during " + operation.GetOr("operation")
  }

  /**
   * The fixed explanation is shown exactly for connectivity failures, or when the
   * error's own message already is that text; the generic fallback never produces it.
   */
  lemma PausedTextOnlyForConnectivity(error: Option<SupabaseError>, operation: Option<string>)
    ensures HandleSupabaseError(error, operation) == PausedProjectMessage
            <==> IsConnectivityFailure(error) || (HasMessage(error) && error.value.message.value == PausedProjectMessage)
  {
    var fallback := "An error occurred during " + operation.GetOr("operation");
    assert fallback[0] == 'A' && PausedProjectMessage[0] == 'C';
  }
}
