/**
 * `createListingHandler`: a fixed sequence of checks on the request, each
 * answering an error and returning early, then the writes (the image file,
 * then the database row). The form decoding, the file system and the
 * database are inputs: the decoded form or the decoder's error, and the
 * error, if any, of each write.
 */
module CreateListing {
  import opened Wrappers
  import opened Decimal
  import opened ServerHttp
  import opened UploadNaming

  /**
   * The decoded multipart form as `r.FormValue` and `r.FormFile` see it; a
   * missing text field reads as "". `image` is the uploaded file's name
   * (`header.Filename`) or the error `FormFile` reports.
   */
  datatype Form = Form(userId: string, name: string, description: string, paymentPerDay: string, image: Result<string, string>)

  /** A request: its method and the outcome of `ParseMultipartForm`. */
  datatype Request = Request(verb: string, form: Result<Form, string>)

  /** The values that passed every check. */
  datatype Accepted = Accepted(userId: int, name: string, description: string, paymentPerDay: int, fileName: string)

  /** The row the `INSERT` adds to `listings`. */
  datatype NewListing = NewListing(userId: int, name: string, description: string, paymentPerDay: int, imagePath: string)

  /** What the handler leaves behind: the image file it created and the row it inserted, if any. */
  datatype Effects = Effects(savedFile: Option<string>, inserted: Option<NewListing>)

  /** Why a request was turned away, one case per check. */
  datatype Rejection = NotPost | BadForm(reason: string) | BadUserId | BadPayment | NoImage(reason: string)

  /** The `http.Error` reply for each rejection. */
  function RejectionReply(r: Rejection): Reply {
    match r
    case NotPost => HttpError(405, "Only POST allowed")
    case BadForm(reason) => HttpError(400, "Could not parse form: " + reason)
    case BadUserId => HttpError(400, "Invalid user_id")
    case BadPayment => HttpError(400, "Invalid paymentPerDay")
    case NoImage(reason) => HttpError(400, "Image upload error: " + reason)
  }

  /** The checks, in the handler's order: the first that fails decides the rejection. */
  function Check(req: Request): Result<Accepted, Rejection> {
    if req.verb != MethodPost then Err(NotPost)
    else if req.form.Err? then Err(BadForm(req.form.error))
    else
      var f := req.form.value;
      match Atoi(f.userId)
      case None => Err(BadUserId)
      case Some(userId) =>
        match Atoi(f.paymentPerDay)
        case None => Err(BadPayment)
        case Some(payment) =>
          match f.image
          case Err(e) => Err(NoImage(e))
          case Ok(fileName) => Ok(Accepted(userId, f.name, f.description, payment, fileName))
  }

  /**
   * The handler. `createErr`, `copyErr` and `insertErr` are the errors of
   * `os.Create`, `io.Copy` and the `INSERT`. Nothing is written unless every
   * check passes; a failed copy leaves the created file behind.
   */
  method CreateListingHandler(req: Request, createErr: Option<string>, copyErr: Option<string>, insertErr: Option<string>)
    returns (reply: Reply, effects: Effects)
    ensures Check(req).Err? ==> reply == RejectionReply(Check(req).error) && effects == Effects(None, None)
    ensures Check(req).Ok? ==>
      var a := Check(req).value;
      var path := UploadPath(a.userId, a.fileName);
      && (createErr.Some? ==>
            reply == HttpError(500, "Failed to save image: " + createErr.value) && effects == Effects(None, None))
      && (createErr.None? && copyErr.Some? ==>
            reply == HttpError(500, "Failed to save image data: " + copyErr.value) && effects == Effects(Some(path), None))
      && (createErr.None? && copyErr.None? && insertErr.Some? ==>
            reply == HttpError(500, "Failed to create listing: " + insertErr.value) && effects == Effects(Some(path), None))
      && (createErr.None? && copyErr.None? && insertErr.None? ==>
            reply == Reply(200, "Listing created\n")
            && effects == Effects(Some(path), Some(NewListing(a.userId, a.name, a.description, a.paymentPerDay, path))))
    ensures IsOk(reply.status) <==> effects.inserted.Some?
  {
    effects := Effects(None, None);
    if req.verb != MethodPost {
      reply := HttpError(405, "Only POST allowed");
      return;
    }
    if req.form.Err? {
      reply := HttpError(400, "Could not parse form: " + req.form.error);
      return;
    }
    var form := req.form.value;
    var userId := Atoi(form.userId);
    if userId.None? {
      reply := HttpError(400, "Invalid user_id");
      return;
    }
    var payment := Atoi(form.paymentPerDay);
    if payment.None? {
      reply := HttpError(400, "Invalid paymentPerDay");
      return;
    }
    if form.image.Err? {
      reply := HttpError(400, "Image upload error: " + form.image.error);
      return;
    }
    var outPath := UploadPath(userId.value, form.image.value);
    if createErr.Some? {
      reply := HttpError(500, "Failed to save image: " + createErr.value);
      return;
    }
    effects := effects.(savedFile := Some(outPath));
    if copyErr.Some? {
      reply := HttpError(500, "Failed to save image data: " + copyErr.value);
      return;
    }
    if insertErr.Some? {
      reply := HttpError(500, "Failed to create listing: " + insertErr.value);
      return;
    }
    effects := effects.(inserted := Some(NewListing(userId.value, form.name, form.description, payment.value, outPath)));
    reply := Reply(200, "Listing created\n");
  }

  /**
   * The checks in order: a request is rejected by a check exactly when every
   * earlier check passed and this one fails, whatever the later fields hold.
   */
  lemma CheckOrder(req: Request)
    ensures Check(req) == Err(NotPost) <==> req.verb != MethodPost
    ensures Check(req).Err? && Check(req).error.BadForm? <==> req.verb == MethodPost && req.form.Err?
    ensures Check(req) == Err(BadUserId) <==>
      req.verb == MethodPost && req.form.Ok? && Atoi(req.form.value.userId).None?
    ensures Check(req) == Err(BadPayment) <==>
      req.verb == MethodPost && req.form.Ok? && Atoi(req.form.value.userId).Some?
      && Atoi(req.form.value.paymentPerDay).None?
    ensures Check(req).Err? && Check(req).error.NoImage? <==>
      req.verb == MethodPost && req.form.Ok? && Atoi(req.form.value.userId).Some?
      && Atoi(req.form.value.paymentPerDay).Some? && req.form.value.image.Err?
  {
  }

  /** A method other than `POST` answers 405; every later rejection answers 400. */
  lemma RejectionStatus(r: Rejection)
    ensures RejectionReply(r).status == (if r.NotPost? then 405 else 400)
    ensures !IsOk(RejectionReply(r).status)
  {
  }

  /**
   * A request passes exactly when it is a `POST` whose form decodes, whose
   * `user_id` and `paymentPerDay` are base-10 integers and which carries an
   * image; what passes is those integers, the text fields and the file name.
   */
  lemma CheckAccepts(req: Request)
    ensures Check(req).Ok? <==>
      req.verb == MethodPost && req.form.Ok? && Atoi(req.form.value.userId).Some?
      && Atoi(req.form.value.paymentPerDay).Some? && req.form.value.image.Ok?
    ensures Check(req).Ok? ==>
      var f := req.form.value;
      Check(req).value == Accepted(Atoi(f.userId).value, f.name, f.description, Atoi(f.paymentPerDay).value, f.image.value)
  {
  }

  /** There is no range check: a negative payment, written as `%d` writes it, is accepted as it is. */
  lemma NegativePaymentAccepted(req: Request, payment: int)
    requires req.verb == MethodPost && req.form.Ok? && Atoi(req.form.value.userId).Some? && req.form.value.image.Ok?
    requires payment < 0 && req.form.value.paymentPerDay == FormatInt(payment)
    ensures Check(req).Ok? && Check(req).value.paymentPerDay == payment
  {
    AtoiFormatInt(payment);
  }
}
