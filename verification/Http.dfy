/** What an API route hands back: a JSON body, or an error status with its message. */
module Http {

  datatype Response<+T> = Ok(body: T) | Error(status: nat, message: string)
}
