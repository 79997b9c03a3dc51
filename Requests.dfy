/**
 * The six arguments every `generate_reply` in src/ai takes, in the order the
 * Python signatures list them.
 */
module Requests {
  datatype ReplyRequest = ReplyRequest(
    reviewText: string,
    productName: string,
    rating: int,
    userName: string,
    pros: string,
    cons: string)
}
