/** The chat component's side of a send: it forwards the form's value to
    the service only when the form is valid, no send is in flight and the
    value is non-empty. The service itself checks none of this. */
module App {
  import opened Chat

  /** The component's guard. The form control's validators (required,
      minimum length 1) and the truthiness test all reject exactly the
      empty string; `isLoading` is the component's copy of the service's
      loading flag. */
  predicate Accepts(value: string, isLoading: bool)
  {
    value != "" && !isLoading
  }

  method Submit(service: ChatService, value: string, st: Stamps, response: Outcome)
    requires service.Valid()
    modifies service
    ensures service.Valid()
    ensures Accepts(value, old(service.loading)) ==>
      && service.messages == Sent(old(service.messages), value, st, response)
      && service.events == old(service.events) + SendEvents(old(service.messages), false, value, st, response)
      && !service.loading
    ensures !Accepts(value, old(service.loading)) ==> unchanged(service)
  {
    if Accepts(value, service.loading) {
      service.SendMessage(value, st, response);
    }
  }

  /** A fresh service, then "hi" answered in three chunks: the transcript
      reads greeting, "hi", "Hello, world", and loading is back to false. */
  method ChunkedReplyScenario() returns (texts: seq<string>, loading: bool)
    ensures texts == [GreetingText, "hi", "Hello, world"]
    ensures !loading
  {
    var service := new ChatService(0);
    Submit(service, "hi", Stamps(1, 2, 3), Stream(["Hel", "lo, ", "world"], false));
    ConcatExample();
    texts, loading := Texts(service.messages), service.loading;
  }

  /** A fresh service, then "hi" met by a non-OK response: the empty
      placeholder stays, followed by the apology. */
  method NotOkScenario() returns (texts: seq<string>, loading: bool)
    ensures texts == [GreetingText, "hi", "", ApologyText]
    ensures !loading
  {
    var service := new ChatService(0);
    Submit(service, "hi", Stamps(1, 2, 3), NotOk);
    texts, loading := Texts(service.messages), service.loading;
  }

  /** An empty submission changes nothing: right after it the fresh
      transcript is still the greeting alone and no notification beyond the
      constructor's has been emitted. A clear then leaves just the greeting. */
  method EmptySubmitScenario() returns (afterSubmit: seq<string>, ghost notified: nat, afterClear: seq<string>, loading: bool)
    ensures afterSubmit == [GreetingText] && notified == 1
    ensures afterClear == [GreetingText]
    ensures !loading
  {
    var service := new ChatService(0);
    Submit(service, "", Stamps(1, 2, 3), NotOk);
    afterSubmit, notified := Texts(service.messages), |service.events|;
    service.ClearMessages(4);
    afterClear, loading := Texts(service.messages), service.loading;
  }

  /** A whitespace-only value passes the guard and is sent like any other
      text. */
  method WhitespaceSubmitScenario() returns (texts: seq<string>, loading: bool)
    ensures texts == [GreetingText, " ", "ok"]
    ensures !loading
  {
    var service := new ChatService(0);
    Submit(service, " ", Stamps(1, 2, 3), Stream(["ok"], false));
    assert Concat(["ok"]) == "ok";
    texts, loading := Texts(service.messages), service.loading;
    assert |texts| == 3;
  }
}
