/**
 * Client code that drives the model the way the page does and checks, from
 * the contracts alone, what a user would observe.
 */
module Scenarios {
  import opened JsValues
  import opened TaskList
  import opened AppState
  import opened Login

  /** Log in, load one task, narrow the view; then log out and remount. */
  method LoginLoadFilterLogout() returns (visibleAfterFilter: seq<Task>, tokenAfterRemount: string)
    ensures visibleAfterFilter == []
    ensures tokenAfterRemount == ""
  {
    var storage := new Storage(None);
    var app := new App(storage);
    assert app.token == "";
    var form := new LoginForm(app);

    var _ := form.Submit("a", "b", LoginReply(Some("T1"), None));
    assert app.token == "T1" && storage.token == Some("T1") && form.authError == "";

    var x := Task("1", "x", Pending, "low");
    var listCall := app.OnTokenChange(ArrayReply([x]));
    assert listCall == Some(ListTasks("T1"));
    assert app.tasks == [x];

    app.SetFilterStatus(Completed);
    visibleAfterFilter := app.FilteredTasks();
    assert x !in visibleAfterFilter;

    app.Logout();
    assert app.tasks == [] && storage.token == None;
    assert app.filterStatus == Completed && app.filterPriority == All;
    var remounted := new App(storage);
    tokenAfterRemount := remounted.token;
  }

  /** A failed login leaves the earlier session alone and shows an error. */
  method FailedLoginKeepsSession() returns (error: string, token: string)
    ensures error == LoginFailed && token == "T0"
  {
    var storage := new Storage(Some("T0"));
    var app := new App(storage);
    var form := new LoginForm(app);
    var _ := form.Submit("a", "wrong", LoginReply(None, Some("")));
    error, token := form.authError, app.token;
  }

  /** Create, toggle and delete one task on an empty collection. */
  method CreateToggleDelete() returns (finalTasks: seq<Task>)
    ensures finalTasks == []
  {
    var storage := new Storage(Some("T"));
    var app := new App(storage);
    var created := Task("7", "buy milk", Pending, Medium);
    var createCall := app.AddTask("buy milk", created);
    assert createCall == CreateTask("T", "buy milk", Pending, Medium);
    assert app.tasks == [created];

    var statusCall := app.UpdateTaskStatus("7", Pending, created.(status := Completed));
    assert statusCall == SetStatus("T", "7", Completed);
    assert app.tasks == [created.(status := Completed)];

    var _ := app.DeleteTask("7");
    finalTasks := app.tasks;
    assert forall t :: t in finalTasks ==> t.id != "7";
    assert forall t :: t in finalTasks ==> t in [created.(status := Completed)];
  }
}
