/**
 * The response envelope every handler sends, and the builder that assembles one field at a
 * time.
 */
module Responses {
  import opened Wrappers
  import opened Outcomes

  /**
   * What a response can carry: `null` (the builder's default), `undefined` (an analysis the
   * controller never assigned), an analysis, or the executor's reply, which this model keeps
   * as an opaque text.
   */
  datatype Payload = Null | Undefined | Analysis(analysis: CodeAnalysis) | Executed(reply: string)

  /** The four fields of a response, as the client receives them. */
  datatype ResponseBody = ResponseBody(statusCode: int, data: Payload, message: string, success: bool)

  /** A body whose `success` flag agrees with its status: true exactly below 400. */
  predicate Consistent(b: ResponseBody) {
    b.success <==> b.statusCode < 400
  }

  /** The body `new ApiResponse(statusCode, data, message)` builds. */
  function Body(statusCode: int, data: Payload, message: string): ResponseBody {
    ResponseBody(statusCode, data, message, statusCode < 400)
  }

  /** Every body built from a status, a payload and a message is consistent and keeps all three. */
  lemma BodyIsConsistent(statusCode: int, data: Payload, message: string)
    ensures Consistent(Body(statusCode, data, message))
    ensures Body(statusCode, data, message).statusCode == statusCode
    ensures Body(statusCode, data, message).data == data
    ensures Body(statusCode, data, message).message == message
  {
  }

  /** Two bodies that agree on status, payload and message are equal: `success` adds nothing. */
  lemma ConsistentBodiesAgree(b1: ResponseBody, b2: ResponseBody)
    requires Consistent(b1) && Consistent(b2)
    requires b1.statusCode == b2.statusCode && b1.data == b2.data && b1.message == b2.message
    ensures b1 == b2
  {
  }

  class ApiResponse {
    var statusCode: int
    var data: Payload
    var message: string
    var success: bool

    function Value(): ResponseBody
      reads this
    {
      ResponseBody(statusCode, data, message, success)
    }

    /** `new ApiResponse(statusCode, data, message)`; a message left out is "Success". */
    constructor (statusCode: int, data: Payload, message: Option<string>)
      ensures Value() == Body(statusCode, data, message.GetOr("Success"))
      ensures Consistent(Value())
    {
      this.statusCode := statusCode;
      this.data := data;
      this.message := message.GetOr("Success");
      this.success := statusCode < 400;
    }

    /** `ApiResponse.Builder`: every access makes a new builder with the default fields. */
    static method Builder() returns (b: ApiResponseBuilder)
      ensures fresh(b)
      ensures b.Fields() == (200, Null, "Success")
    {
      b := new ApiResponseBuilder();
    }
  }

  class ApiResponseBuilder {
    var statusCode: int
    var data: Payload
    var message: string

    function Fields(): (int, Payload, string)
      reads this
    {
      (statusCode, data, message)
    }

    /** A new builder: status 200, no data, message "Success". */
    constructor ()
      ensures Fields() == (200, Null, "Success")
    {
      statusCode := 200;
      data := Null;
      message := "Success";
    }

    /** Sets the status and hands back the same builder. */
    method StatusCode(statusCode: int) returns (b: ApiResponseBuilder)
      modifies this
      ensures b == this
      ensures Fields() == (statusCode, old(data), old(message))
    {
      this.statusCode := statusCode;
      b := this;
    }

    /** Sets the payload and hands back the same builder. */
    method Data(data: Payload) returns (b: ApiResponseBuilder)
      modifies this
      ensures b == this
      ensures Fields() == (old(statusCode), data, old(message))
    {
      this.data := data;
      b := this;
    }

    /** Sets the message and hands back the same builder. */
    method Message(message: string) returns (b: ApiResponseBuilder)
      modifies this
      ensures b == this
      ensures Fields() == (old(statusCode), old(data), message)
    {
      this.message := message;
      b := this;
    }

    /** A new response carrying the builder's current fields, the builder itself unchanged. */
    method Build() returns (r: ApiResponse)
      ensures fresh(r)
      ensures r.Value() == Body(statusCode, data, message)
      ensures Consistent(r.Value())
    {
      r := new ApiResponse(statusCode, data, Some(message));
    }
  }
}
