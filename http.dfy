/** What a server route sends back: a JSON body with status 200, or an error status with a message. */
module Http {

  datatype HttpReply<+T> = Ok(body: T) | Status(code: int, message: string)
}
