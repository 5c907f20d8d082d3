/**
 * The part of the JSF request context the beans use: a queue of
 * user-facing messages, each optionally addressed to a component id,
 * and the request's "validation failed" flag.
 */
module Faces {
  import opened Wrappers

  /** Detail of the INFO messages both beans queue after a successful write. */
  const SuccessDetail := "Operación exitosa"

  datatype Severity = Info | Error

  /** A FacesMessage: severity, summary text and an optional detail text. */
  datatype FacesMessage = FacesMessage(severity: Severity, summary: string, detail: Option<string>)

  /** A message as queued by `addMessage(clientId, message)`; `None` is the global target. */
  datatype QueuedMessage = Queued(clientId: Option<string>, message: FacesMessage)

  /** One Bean Validation constraint violation: the property path and its message. */
  datatype Violation = Violation(propertyPath: string, message: string)

  class FacesContext {
    var messages: seq<QueuedMessage>
    var validationFailed: bool

    constructor ()
      ensures messages == [] && !validationFailed
    {
      messages := [];
      validationFailed := false;
    }

    /** `addMessage(clientId, message)`: appends to the queue. */
    method AddMessage(clientId: Option<string>, message: FacesMessage)
      modifies this
      ensures messages == old(messages) + [Queued(clientId, message)]
      ensures validationFailed == old(validationFailed)
    {
      messages := messages + [Queued(clientId, message)];
    }

    /** `remove()` on the message iterator positioned at index `i`. */
    method RemoveMessage(i: nat)
      requires i < |messages|
      modifies this
      ensures messages == old(messages)[..i] + old(messages)[i + 1..]
      ensures validationFailed == old(validationFailed)
    {
      messages := messages[..i] + messages[i + 1..];
    }

    /** `validationFailed()`: marks the current request as failed validation. */
    method MarkValidationFailed()
      modifies this
      ensures validationFailed
      ensures messages == old(messages)
    {
      validationFailed := true;
    }
  }

  /** The ERROR message a bean queues for one violation: "<label>: <message>". */
  function ViolationMessage(v: Violation, clientId: Option<string>, labelOf: string -> string): QueuedMessage
  {
    Queued(clientId, FacesMessage(Error, labelOf(v.propertyPath) + ": " + v.message, None))
  }

  /**
   * The messages queued by the violation loop of a bean's save: one ERROR
   * per violation, in iteration order, all addressed to `clientId`.
   */
  function ErrorMessages(vs: seq<Violation>, clientId: Option<string>, labelOf: string -> string): (r: seq<QueuedMessage>)
    ensures |r| == |vs|
    ensures forall i :: 0 <= i < |vs| ==>
      && r[i].clientId == clientId
      && r[i].message.severity == Error
      && r[i].message.summary == labelOf(vs[i].propertyPath) + ": " + vs[i].message
      && r[i].message.detail == None
  {
    if vs == [] then []
    else ErrorMessages(vs[..|vs| - 1], clientId, labelOf) + [ViolationMessage(vs[|vs| - 1], clientId, labelOf)]
  }
}
