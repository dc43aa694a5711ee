/** The employee form of the home screen. Its seven pieces of component
    state are fields that the setters and the POST handler update in
    place. */
module HomeScreen {
  import opened Text
  import opened Values

  const EMPLOYEE_NAME_REQUIRED: string := "Employee name is required"
  const JOB_DESIGNATION_REQUIRED: string := "Job Designation is required"
  const COMPANY_NAME_REQUIRED: string := "Company name is required"

  /** The body of POST /employees. */
  datatype EmployeeBody = EmployeeBody(employeeName: string, jobDesignation: string, companyName: string)

  /** The message a field's check records: its own message when the value
      is blank, nothing otherwise. */
  function RequiredError(value: string, message: string): string
  {
    if IsBlank(value) then message else ""
  }

  /** A field holding only white space (spaces, tabs, line breaks and the
      other ECMAScript white-space characters) is reported as required just
      like an empty one, and any other value is not. */
  lemma RequiredExactlyForWhiteSpace(value: string, message: string)
    requires message != ""
    ensures RequiredError(value, message) == message <==> AllSpace(value)
    ensures RequiredError(value, message) == "" <==> !AllSpace(value)
  {
    BlankIffAllSpace(value);
  }

  class HomeScreen {
    var employeeName: string
    var jobDesignation: string
    var companyName: string
    var employeeNameError: string
    var jobDesignationError: string
    var companyNameError: string
    var isLoading: bool

    /** Every useState starts from '' or false. */
    constructor ()
      ensures employeeName == "" && jobDesignation == "" && companyName == ""
      ensures employeeNameError == "" && jobDesignationError == "" && companyNameError == ""
      ensures !isLoading
    {
      employeeName, jobDesignation, companyName := "", "", "";
      employeeNameError, jobDesignationError, companyNameError := "", "", "";
      isLoading := false;
    }

    /** The onChangeText of the three inputs. */
    method SetEmployeeName(text: string)
      modifies this
      ensures employeeName == text
      ensures jobDesignation == old(jobDesignation) && companyName == old(companyName)
      ensures employeeNameError == old(employeeNameError) && jobDesignationError == old(jobDesignationError)
      ensures companyNameError == old(companyNameError) && isLoading == old(isLoading)
    {
      employeeName := text;
    }

    method SetJobDesignation(text: string)
      modifies this
      ensures jobDesignation == text
      ensures employeeName == old(employeeName) && companyName == old(companyName)
      ensures employeeNameError == old(employeeNameError) && jobDesignationError == old(jobDesignationError)
      ensures companyNameError == old(companyNameError) && isLoading == old(isLoading)
    {
      jobDesignation := text;
    }

    method SetCompanyName(text: string)
      modifies this
      ensures companyName == text
      ensures employeeName == old(employeeName) && jobDesignation == old(jobDesignation)
      ensures employeeNameError == old(employeeNameError) && jobDesignationError == old(jobDesignationError)
      ensures companyNameError == old(companyNameError) && isLoading == old(isLoading)
    {
      companyName := text;
    }

    /** handlePost. response is what awaiting postAPI("/employees", body)
        would give; it is consulted only when all three fields are filled.
        The three inputs are cleared only on a truthy response, and the
        spinner is off again when the handler returns. */
    method HandlePost(response: Response<()>) returns (valid: bool, request: Option<EmployeeBody>)
      modifies this
      ensures employeeNameError == RequiredError(old(employeeName), EMPLOYEE_NAME_REQUIRED)
      ensures jobDesignationError == RequiredError(old(jobDesignation), JOB_DESIGNATION_REQUIRED)
      ensures companyNameError == RequiredError(old(companyName), COMPANY_NAME_REQUIRED)
      ensures valid <==>
        !IsBlank(old(employeeName)) && !IsBlank(old(jobDesignation)) && !IsBlank(old(companyName))
      ensures valid <==> employeeNameError == "" && jobDesignationError == "" && companyNameError == ""
      ensures request ==
        if valid then Some(EmployeeBody(old(employeeName), old(jobDesignation), old(companyName))) else None
      ensures valid && response.Ok? ==>
        employeeName == "" && jobDesignation == "" && companyName == ""
      ensures !(valid && response.Ok?) ==>
        && employeeName == old(employeeName)
        && jobDesignation == old(jobDesignation)
        && companyName == old(companyName)
      ensures isLoading == if valid then false else old(isLoading)
    {
      valid := true;

      employeeNameError := "";
      jobDesignationError := "";
      companyNameError := "";

      if IsBlank(employeeName) {
        employeeNameError := EMPLOYEE_NAME_REQUIRED;
        valid := false;
      }

      if IsBlank(jobDesignation) {
        jobDesignationError := JOB_DESIGNATION_REQUIRED;
        valid := false;
      }

      if IsBlank(companyName) {
        companyNameError := COMPANY_NAME_REQUIRED;
        valid := false;
      }

      request := None;
      if valid {
        isLoading := true;
        request := Some(EmployeeBody(employeeName, jobDesignation, companyName));
        if response.Ok? {
          employeeName := "";
          jobDesignation := "";
          companyName := "";
        }
        isLoading := false;
      }
    }
  }

  /** Two presses in a row on a filled form: the first one posts and, on a
      truthy response, empties the form, so the second one posts nothing and
      reports all three fields as required. */
  method PostTwice(name: string, job: string, company: string)
    returns (first: Option<EmployeeBody>, second: Option<EmployeeBody>,
             nameError: string, jobError: string, companyError: string)
    requires !IsBlank(name) && !IsBlank(job) && !IsBlank(company)
    ensures first == Some(EmployeeBody(name, job, company))
    ensures second == None
    ensures nameError == EMPLOYEE_NAME_REQUIRED
    ensures jobError == JOB_DESIGNATION_REQUIRED
    ensures companyError == COMPANY_NAME_REQUIRED
  {
    var screen := new HomeScreen();
    screen.SetEmployeeName(name);
    screen.SetJobDesignation(job);
    screen.SetCompanyName(company);
    var ok;
    ok, first := screen.HandlePost(Ok(()));
    ok, second := screen.HandlePost(Ok(()));
    nameError, jobError, companyError :=
      screen.employeeNameError, screen.jobDesignationError, screen.companyNameError;
  }
}
