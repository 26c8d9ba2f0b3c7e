/** The records the front end exchanges with the backend and between its
    components (src/lib/api.ts, src/lib/types.ts, the Zod form value types).
    Dates are left out: nothing in the core reads them. */
module Domain {
  import opened Wrappers

  /** An entry of the country catalog. */
  datatype Country = Country(code: string, name: string, currency: string)

  /** A signed-in user as `/auth/me`, `/auth/login` and `/auth/register` return it. */
  datatype User = User(
    mongoId: string,
    userId: string,
    name: string,
    email: string,
    phone: string,
    location: Option<string>,
    profileImage: Option<string>)

  /** The populated form of a `creatorId` field. */
  datatype CreatorInfo = CreatorInfo(mongoId: string, userId: string, name: string, email: string)

  /** `creatorId`: either a bare id string or the populated creator. */
  datatype Creator = CreatorId(id: string) | CreatorRef(info: CreatorInfo)

  /** The pricing metadata the backend attaches to a course or package. */
  datatype LocalizedPriceInfo = LocalizedPriceInfo(
    originalPriceUSD: real,
    originalCurrency: string,
    localizedPrice: Option<real>,
    localizedCurrency: Option<string>,
    appliedMultiplier: Option<real>,
    conversionRate: Option<real>,
    message: Option<string>,
    isBlacklisted: Option<bool>)

  datatype Course = Course(
    mongoId: string,
    courseId: string,
    title: string,
    description: Option<string>,
    price: real,
    image: Option<string>,
    creator: Creator,
    localizedPriceInfo: Option<LocalizedPriceInfo>)

  /** A course as embedded in a populated package. */
  datatype PackageCourseMinimal = PackageCourseMinimal(
    mongoId: string, courseId: string, title: string, price: real, image: Option<string>)

  /** One entry of a package's `courses` array: a bare id or a populated course. */
  datatype CourseRef = CourseIdRef(id: string) | CourseEntry(course: PackageCourseMinimal)

  /** `courses` is `None` when the response carries no array there. */
  datatype Package = Package(
    mongoId: string,
    packageId: string,
    title: string,
    courses: Option<seq<CourseRef>>,
    creator: Creator,
    image: Option<string>,
    baseTotalPriceUSD: Option<real>,
    localizedPriceInfo: Option<LocalizedPriceInfo>)

  /** `CourseFormValues`: what the course form submits. */
  datatype CourseFormValues = CourseFormValues(
    title: string, description: Option<string>, price: real, image: Option<string>)

  /** `Partial<CourseFormValues>`: the initial data handed to the course form. */
  datatype PartialCourseForm = PartialCourseForm(
    title: Option<string>, description: Option<string>, price: Option<real>, image: Option<string>)

  /** The body of a course create or update request. */
  datatype CoursePayload = CoursePayload(
    title: string, description: Option<string>, price: real, image: Option<string>)

  /** `PackageFormValues`: what the package form submits. */
  datatype PackageFormValues = PackageFormValues(
    title: string, courseIds: seq<string>, image: Option<string>)

  /** `Partial<PackageFormValues>`: the initial data handed to the package form. */
  datatype PartialPackageForm = PartialPackageForm(
    title: Option<string>, courseIds: Option<seq<string>>, image: Option<string>)

  /** The body of a package create or update request. */
  datatype PackagePayload = PackagePayload(
    title: string, courseIds: seq<string>, image: Option<string>)

  datatype LoginValues = LoginValues(email: string, password: string)

  datatype RegisterValues = RegisterValues(
    name: string,
    email: string,
    password: string,
    phone: string,
    location: Option<string>,
    profileImage: Option<string>)

  /** A rejected API call; the views only care that it failed. */
  datatype ApiError = ApiError(status: Option<nat>, message: string)
}
