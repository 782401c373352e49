/** The request an endpoint builder hands over for sending. */
module Requests {

  /** The host every endpoint talks to. */
  const HostUrl: string := "api.worldweatheronline.com"

  /** The query parameters, the path of the endpoint, the host and the URI
      scheme, as `Request`'s four-argument constructor stores them. */
  datatype Request = Request(requestParams: map<string, string>, baseUrl: string, hostUrl: string, scheme: string)
}
