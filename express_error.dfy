/** The backend's error object: `new ExpressError(message, status)`. */
module ExpressErrors {

  datatype ExpressError = ExpressError(message: string, status: nat)

  /** Thrown by the partial-update helper when there is nothing to update. */
  const NoData := ExpressError("No data", 400)

  /** Forwarded by `ensureLoggedIn` when no user is attached to the request. */
  const Unauthorized := ExpressError("Unauthorized", 401)
}
