/** The container-creation wizard (src/hooks/creation/useContainerCreation.js): four steps —
    image, name, ports, environment — each confirmed with `nextStep`, which validates what the
    step needs and sets the prompt for the next one; at the last step it hands the four
    inputs to `onCreate`. `cancelCreation` starts over and tells `onCancel`.

    `Next` and `Cancel` are the two transitions on the wizard's state; `Creation` is the hook
    with its state in fields. The callbacks are `SafeCall` callees, and what matters of them
    is the argument lists they were called with. */
module ContainerCreation {
  import opened JsString
  import opened Validation
  import opened Feedback
  import opened SafeCall

  const EmptyImageMessage := "Image name cannot be empty."
  const NamePrompt := "Optional: Enter container name or leave empty and press Enter"
  const PortsPrompt := "Optional: Enter ports (format 8080:80,443:443) or leave empty and press Enter"
  const PortsError := "Port format must be host:container and both must be numbers (e.g. 8080:80)"
  const DbWarning := "Warning: This image usually requires environment variables (e.g. MYSQL_ROOT_PASSWORD=my-secret-pw for MySQL, POSTGRES_PASSWORD=yourpassword for Postgres). Enter them as VAR=val,VAR2=val2 or leave empty and press Enter."
  const EnvPrompt := "Optional: Enter environment variables (format VAR1=val1,VAR2=val2) or leave empty and press Enter"

  /** The object handed to `onCreate`. */
  datatype Request = Request(imageName: string, containerName: string, portInput: string,
                             envInput: string)

  /** The hook's state: the step (0 image, 1 name, 2 ports, 3 environment), the four inputs
      and the message slot. */
  datatype Wizard = Wizard(step: nat, imageName: string, containerName: string,
                           portInput: string, envInput: string, message: string, color: Color)

  /** The state `useState` starts with, and `cancelCreation` returns to. */
  const Initial := Wizard(0, [], [], [], [], [], Yellow)

  /** The inputs as the last step hands them over. */
  function RequestOf(w: Wizard): (r: Request)
    ensures r.imageName == w.imageName && r.containerName == w.containerName
    ensures r.portInput == w.portInput && r.envInput == w.envInput
  {
    Request(w.imageName, w.containerName, w.portInput, w.envInput)
  }

  /** Some entry of `dbImages` occurs in the trimmed, lower-cased image name. */
  predicate IsDb(dbImages: seq<string>, imageName: string) {
    exists k :: 0 <= k < |dbImages| && Includes(ToLower(Trim(imageName)), dbImages[k])
  }

  /** `needles.some(n => hay.includes(n))`, as the array method walks the list. */
  function SomeIncluded(hay: string, needles: seq<string>): (b: bool)
    ensures b <==> exists k :: 0 <= k < |needles| && Includes(hay, needles[k])
  {
    if needles == [] then false
    else if Includes(hay, needles[0]) then true
    else
      var b := SomeIncluded(hay, needles[1..]);
      assert forall k :: 1 <= k < |needles| ==> needles[k] == needles[1..][k - 1];
      b
  }

  /** `dbImages.some(db => imageName.trim().toLowerCase().includes(db))`. */
  function SomeDbImage(dbImages: seq<string>, imageName: string): (b: bool)
    ensures b <==> IsDb(dbImages, imageName)
  {
    SomeIncluded(ToLower(Trim(imageName)), dbImages)
  }

  /** The wizard after `nextStep`, and the requests `onCreate` was called with. */
  datatype Stepped = Stepped(wizard: Wizard, created: seq<Request>)

  /** `nextStep()`. */
  function Next(w: Wizard, dbImages: seq<string>, onCreate: Callee<Request, ()>): (r: Stepped)
    // the inputs are never changed, and the step moves one forward or not at all
    ensures r.wizard.imageName == w.imageName && r.wizard.containerName == w.containerName
    ensures r.wizard.portInput == w.portInput && r.wizard.envInput == w.envInput
    ensures r.wizard.step == w.step || r.wizard.step == w.step + 1
    // only the last step calls `onCreate`, and only that step leaves the state as it was
    ensures r.created != [] ==> w.step == 3 && r.created == [RequestOf(w)]
    ensures w.step == 3 ==> r.wizard == w && r.created == SafeCall.SafeCall(onCreate, RequestOf(w)).calls
  {
    if w.step == 0 then
      if Trim(w.imageName) == [] then
        Stepped(w.(message := EmptyImageMessage, color := Red), [])
      else
        Stepped(w.(step := 1, message := NamePrompt, color := Yellow), [])
    else if w.step == 1 then
      Stepped(w.(step := 2, message := PortsPrompt, color := Yellow), [])
    else if w.step == 2 then
      if Trim(w.portInput) != [] && !ValidatePorts(w.portInput) then
        Stepped(w.(message := PortsError, color := Red), [])
      else if SomeDbImage(dbImages, w.imageName) then
        Stepped(w.(step := 3, message := DbWarning, color := Yellow), [])
      else
        Stepped(w.(step := 3, message := EnvPrompt, color := Yellow), [])
    else if w.step == 3 then
      Stepped(w, SafeCall.SafeCall(onCreate, RequestOf(w)).calls)
    else
      Stepped(w, [])
  }

  /** The step advances exactly when the current one is complete: a non-blank image name, any
      container name, and a blank or valid port list; the last step never advances. Holding
      back shows the step's error in red; advancing shows the next prompt in yellow. */
  lemma NextAdvancesIff(w: Wizard, dbImages: seq<string>, onCreate: Callee<Request, ()>)
    ensures var r := Next(w, dbImages, onCreate).wizard;
            r.step == w.step + 1 <==>
              (w.step == 0 && Trim(w.imageName) != [])
              || w.step == 1
              || (w.step == 2 && (Trim(w.portInput) == [] || ValidatePorts(w.portInput)))
    ensures var r := Next(w, dbImages, onCreate).wizard;
            r.step == w.step + 1 ==> r.color == Yellow
    ensures var r := Next(w, dbImages, onCreate).wizard;
            w.step == 0 && Trim(w.imageName) == [] ==> r.message == EmptyImageMessage && r.color == Red
    ensures var r := Next(w, dbImages, onCreate).wizard;
            w.step == 2 && Trim(w.portInput) != [] && !ValidatePorts(w.portInput) ==>
              r.message == PortsError && r.color == Red
  {
  }

  /** On leaving the port step, the environment prompt warns exactly when the image looks like
      one of the database images. */
  lemma DbWarningIff(w: Wizard, dbImages: seq<string>, onCreate: Callee<Request, ()>)
    requires w.step == 2 && (Trim(w.portInput) == [] || ValidatePorts(w.portInput))
    ensures var r := Next(w, dbImages, onCreate).wizard;
            r.step == 3 && (r.message == DbWarning <==> IsDb(dbImages, w.imageName))
            && (r.message == EnvPrompt <==> !IsDb(dbImages, w.imageName))
  {
    assert |DbWarning| != |EnvPrompt|;
  }

  /** The database check ignores surrounding blanks and letter case of the image name. */
  lemma DbCheckIgnoresCaseAndBlanks(dbImages: seq<string>, name: string, padded: string)
    requires ToLower(Trim(padded)) == ToLower(Trim(name))
    ensures IsDb(dbImages, padded) == IsDb(dbImages, name)
  {
  }

  /** The environment input is handed over as typed: the last step does not validate it, so
      even a list `validateEnvVars` rejects reaches `onCreate`. */
  lemma EnvNotValidated(w: Wizard, dbImages: seq<string>, run: Request -> Outcome<()>)
    requires w.step == 3 && !ValidateEnvVars(w.envInput)
    ensures Next(w, dbImages, Function(run)).created == [RequestOf(w)]
  {
  }

  /** Confirming the last step twice calls `onCreate` twice with the same request. */
  lemma ConfirmTwice(w: Wizard, dbImages: seq<string>, run: Request -> Outcome<()>)
    requires w.step == 3
    ensures var first := Next(w, dbImages, Function(run));
            var second := Next(first.wizard, dbImages, Function(run));
            first.created + second.created == [RequestOf(w), RequestOf(w)]
  {
  }

  /** A non-blank image name and any container name take the wizard from the first step to
      the port step in two confirmations, without calling `onCreate`. */
  lemma ImageAndNameSteps(w: Wizard, dbImages: seq<string>, onCreate: Callee<Request, ()>)
    requires w.step == 0 && Trim(w.imageName) != []
    ensures var s := Next(w, dbImages, onCreate);
            s.created == [] && Next(s.wizard, dbImages, onCreate).created == []
            && Next(s.wizard, dbImages, onCreate).wizard
               == w.(step := 2, message := PortsPrompt, color := Yellow)
  {
  }

  /** Leaving the port step with no ports typed reaches the last step, whose confirmation
      hands `onCreate` the inputs as they were typed. */
  lemma BlankPortsThenCreate(w: Wizard, dbImages: seq<string>, run: Request -> Outcome<()>)
    requires w.step == 2 && Trim(w.portInput) == []
    ensures var s := Next(w, dbImages, Function(run));
            s.created == [] && s.wizard.step == 3
            && Next(s.wizard, dbImages, Function(run)).created == [RequestOf(w)]
  {
  }

  /** The wizard after `cancelCreation`, and the argument lists `onCancel` was called with. */
  datatype Cancelled = Cancelled(wizard: Wizard, cancels: seq<()>)

  /** `cancelCreation()`. */
  function Cancel(w: Wizard, onCancel: Callee<(), ()>): (r: Cancelled)
    ensures r.wizard == Initial
    ensures |r.cancels| == (if onCancel.Function? then 1 else 0)
  {
    Cancelled(Initial, SafeCall.SafeCall(onCancel, ()).calls)
  }

  /** Cancelling forgets everything typed, wherever the wizard was: the state after a cancel
      is the state of a fresh wizard, and a second cancel changes it no further. */
  lemma CancelForgets(w: Wizard, v: Wizard, onCancel: Callee<(), ()>)
    ensures Cancel(w, onCancel).wizard == Cancel(v, onCancel).wizard
    ensures Cancel(Cancel(w, onCancel).wizard, onCancel).wizard == Cancel(w, onCancel).wizard
    ensures Cancel(w, onCancel).wizard.step == 0 && Cancel(w, onCancel).wizard.imageName == []
  {
  }

  /** The hook, with its state in fields and the requests and cancellations its callbacks
      received. */
  class Creation {
    var step: nat
    var imageName: string
    var containerName: string
    var portInput: string
    var envInput: string
    var message: string
    var color: Color
    var created: seq<Request>
    var cancels: seq<()>
    const onCreate: Callee<Request, ()>
    const onCancel: Callee<(), ()>
    const dbImages: seq<string>

    function State(): Wizard
      reads this
    {
      Wizard(step, imageName, containerName, portInput, envInput, message, color)
    }

    /** `useContainerCreation({ onCreate, onCancel, dbImages })`. */
    constructor (onCreate: Callee<Request, ()>, onCancel: Callee<(), ()>, dbImages: seq<string>)
      ensures State() == Initial && created == [] && cancels == []
      ensures this.onCreate == onCreate && this.onCancel == onCancel && this.dbImages == dbImages
    {
      step := 0;
      imageName := [];
      containerName := [];
      portInput := [];
      envInput := [];
      message := [];
      color := Yellow;
      created := [];
      cancels := [];
      this.onCreate := onCreate;
      this.onCancel := onCancel;
      this.dbImages := dbImages;
    }

    method SetImageName(s: string)
      modifies this
      ensures State() == old(State()).(imageName := s)
      ensures created == old(created) && cancels == old(cancels)
    {
      imageName := s;
    }

    method SetContainerName(s: string)
      modifies this
      ensures State() == old(State()).(containerName := s)
      ensures created == old(created) && cancels == old(cancels)
    {
      containerName := s;
    }

    method SetPortInput(s: string)
      modifies this
      ensures State() == old(State()).(portInput := s)
      ensures created == old(created) && cancels == old(cancels)
    {
      portInput := s;
    }

    method SetEnvInput(s: string)
      modifies this
      ensures State() == old(State()).(envInput := s)
      ensures created == old(created) && cancels == old(cancels)
    {
      envInput := s;
    }

    method NextStep()
      modifies this
      ensures State() == Next(old(State()), dbImages, onCreate).wizard
      ensures created == old(created) + Next(old(State()), dbImages, onCreate).created
      ensures cancels == old(cancels)
    {
      if step == 0 {
        if Trim(imageName) == [] {
          message := EmptyImageMessage;
          color := Red;
          return;
        }
        step := 1;
        message := NamePrompt;
        color := Yellow;
        return;
      }
      if step == 1 {
        step := 2;
        message := PortsPrompt;
        color := Yellow;
        return;
      }
      if step == 2 {
        if Trim(portInput) != [] && !ValidatePorts(portInput) {
          message := PortsError;
          color := Red;
          return;
        }
        step := 3;
        var isDb := SomeDbImage(dbImages, imageName);
        if isDb {
          message := DbWarning;
          color := Yellow;
        } else {
          message := EnvPrompt;
          color := Yellow;
        }
        return;
      }
      if step == 3 {
        var r := SafeCall.SafeCall(onCreate, Request(imageName, containerName, portInput, envInput));
        created := created + r.calls;
      }
    }

    method CancelCreation()
      modifies this
      ensures State() == Initial
      ensures cancels == old(cancels) + Cancel(old(State()), onCancel).cancels
      ensures created == old(created)
    {
      step := 0;
      imageName := [];
      containerName := [];
      portInput := [];
      envInput := [];
      message := [];
      color := Yellow;
      var r := SafeCall.SafeCall(onCancel, ());
      cancels := cancels + r.calls;
    }
  }
}
