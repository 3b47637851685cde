/** The request and response bodies exchanged with the checkout provider (the fields the client uses). */
module DinteroTypes {
  import opened Wrappers

  /** Token endpoint reply; `expiresIn` is in seconds. */
  datatype AuthResponse = AuthResponse(accessToken: string, tokenType: string, expiresIn: int)

  datatype SessionUrls = SessionUrls(returnUrl: string, callbackUrl: Option<string>)

  datatype SessionOrder = SessionOrder(amount: int, currency: string, merchantReference: string)

  /** Body of a session creation request. */
  datatype SessionRequest = SessionRequest(url: SessionUrls, order: SessionOrder, profileId: string)

  /** Reply to a session creation request: the session id and its hosted checkout URL. */
  datatype SessionResponse = SessionResponse(id: string, url: string)

  datatype SessionEvent = SessionEvent(id: string, name: string, createdAt: string)

  /** Reply to a session status request; the event list may be absent. */
  datatype SessionStatusResponse = SessionStatusResponse(id: string, events: Option<seq<SessionEvent>>)
}
