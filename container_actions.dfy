/** The decision flow of the container service
    (src/helpers/dockerService/serviceComponents/containerActions.js): `createContainer`
    checks for the image, pulls it only when missing, merges the create options and picks the
    new container's id; `removeContainer` always forces. Every call into the Docker client is
    recorded in order, and what each call answers is a parameter. */
module ContainerActions {
  import opened Wrappers
  import opened JsString
  import opened ImageUtils

  /** The outcome of an awaited call: a value, or a rejection with its `message`. */
  datatype Result<T> = Ok(value: T) | Err(message: string)

  /** A value in a create-options object. */
  datatype Value = Text(text: string) | Flag(flag: bool) | Other(tag: nat)

  type Options = map<string, Value>

  /** `{ Image: imageName, Tty: true, ...options }`: the two defaults, overridden key by key by
      the caller's options. */
  function CreateOptions(imageName: string, options: Options): (r: Options)
    ensures r.Keys == options.Keys + {"Image", "Tty"}
    ensures forall k :: k in options ==> r[k] == options[k]
    ensures "Image" !in options ==> r["Image"] == Text(imageName)
    ensures "Tty" !in options ==> r["Tty"] == Flag(true)
  {
    map["Image" := Text(imageName), "Tty" := Flag(true)] + options
  }

  /** The object `docker.createContainer` resolves to; either id field may be absent. */
  datatype Created = Created(id: Option<string>, Id: Option<string>)

  /** `container.id || container.Id`: the lower-case id when it is a non-empty string,
      otherwise whatever `Id` is (possibly undefined). */
  function CreatedId(c: Created): (r: Option<string>)
    ensures c.id.Some? && c.id.value != [] ==> r == c.id
    ensures !(c.id.Some? && c.id.value != []) ==> r == c.Id
  {
    if c.id.Some? && c.id.value != [] then c.id else c.Id
  }

  /** A call into the Docker client. */
  datatype Call = ListImages | Pull(image: string) | Create(options: Options)
                | Remove(id: string, force: bool)

  /** What a service function does: its own outcome and the calls it made, in order. */
  datatype Run<T> = Run(result: Result<T>, calls: seq<Call>)

  const ListingPrefix := "Error listing local images: "
  const PullPrefix := "Could not pull image: "
  const CreatePrefix := "Error creating container: "
  const RemovePrefix := "Error removing container: "

  /** `createContainer(imageName, options)`. `listing` is what listing the local images
      answers, `pull` what `pullImage(imageName)` answers if it is called, and `create` what
      `docker.createContainer` answers if it is called. Absent `options` are `{}`. */
  function CreateContainer(imageName: string, options: Option<Options>, listing: Result<seq<Image>>,
                           pull: Result<()>, create: Result<Created>): (run: Run<Option<string>>)
    ensures |run.calls| >= 1 && run.calls[0] == ListImages
  {
    match listing
    case Err(m) => Run(Err(ListingPrefix + m), [ListImages])
    case Ok(images) =>
      var present := ImageExists(images, imageName);
      var pulled := if present then [] else [Pull(imageName)];
      if !present && pull.Err? then
        Run(Err(PullPrefix + pull.message), [ListImages, Pull(imageName)])
      else
        var calls := [ListImages] + pulled + [Create(CreateOptions(imageName, options.GetOr(map[])))];
        match create
        case Err(m) => Run(Err(CreatePrefix + m), calls)
        case Ok(c) => Run(Ok(CreatedId(c)), calls)
  }

  /** A present image is not pulled: the service lists, then creates with the merged
      options, and resolves to the new container's id. */
  lemma CreateWithImagePresent(imageName: string, options: Option<Options>, images: seq<Image>,
                               pull: Result<()>, c: Created)
    requires ImageExists(images, imageName)
    ensures CreateContainer(imageName, options, Ok(images), pull, Ok(c))
            == Run(Ok(CreatedId(c)), [ListImages, Create(CreateOptions(imageName, options.GetOr(map[])))])
  {
  }

  /** A missing image is pulled once, by its name, between listing and creating; when the
      pull fails nothing is created and the failure is reported with its own prefix. */
  lemma CreateWithImageMissing(imageName: string, options: Option<Options>, images: seq<Image>,
                               pull: Result<()>, create: Result<Created>)
    requires !ImageExists(images, imageName)
    ensures var run := CreateContainer(imageName, options, Ok(images), pull, create);
            |run.calls| >= 2 && run.calls[1] == Pull(imageName)
            && (forall k :: 2 <= k < |run.calls| ==> !run.calls[k].Pull?)
            && (pull.Err? ==> run == Run(Err(PullPrefix + pull.message), [ListImages, Pull(imageName)]))
            && (pull.Ok? ==> |run.calls| == 3 && run.calls[2].Create?)
  {
  }

  /** No container is created after a failed listing or a failed pull; every failure is the
      underlying message behind the prefix of the step that failed. */
  lemma CreateFailures(imageName: string, options: Option<Options>, listing: Result<seq<Image>>,
                       pull: Result<()>, create: Result<Created>)
    ensures var run := CreateContainer(imageName, options, listing, pull, create);
            (listing.Err? ==> run == Run(Err(ListingPrefix + listing.message), [ListImages]))
            && (run.result.Err? ==>
                  exists prefix, m :: prefix in {ListingPrefix, PullPrefix, CreatePrefix}
                                      && run.result.message == prefix + m)
            && (create.Err? && (exists k :: 0 <= k < |run.calls| && run.calls[k].Create?) ==>
                  run.result == Err(CreatePrefix + create.message))
  {
    var run := CreateContainer(imageName, options, listing, pull, create);
    if run.result.Err? {
      if listing.Err? {
        assert run.result.message == ListingPrefix + listing.message;
      } else if !ImageExists(listing.value, imageName) && pull.Err? {
        assert run.result.message == PullPrefix + pull.message;
      } else {
        assert run.result.message == CreatePrefix + create.message;
      }
    }
  }

  /** The create request is built from the name and the options: an `Image` key in the
      options replaces the name that was looked up (and perhaps pulled), and `Tty` is true
      unless the options say otherwise. */
  lemma CreateRequestOptions(imageName: string, options: Options, images: seq<Image>, c: Created)
    ensures var run := CreateContainer(imageName, Some(options), Ok(images), Ok(()), Ok(c));
            var opts := run.calls[|run.calls| - 1].options;
            run.calls[|run.calls| - 1].Create?
            && opts["Image"] == (if "Image" in options then options["Image"] else Text(imageName))
            && opts["Tty"] == (if "Tty" in options then options["Tty"] else Flag(true))
  {
  }

  /** `removeContainer(containerId)`: one forced removal; a failure is wrapped. */
  function RemoveContainer(containerId: string, remove: Result<()>): (run: Run<()>)
    ensures run.calls == [Remove(containerId, true)]
    ensures remove.Ok? ==> run.result.Ok?
    ensures remove.Err? ==> run.result == Err(RemovePrefix + remove.message)
  {
    match remove
    case Ok(_) => Run(Ok(()), [Remove(containerId, true)])
    case Err(m) => Run(Err(RemovePrefix + m), [Remove(containerId, true)])
  }
}
