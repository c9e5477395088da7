/** The yearly cost of an employee to the company. */
module EmployeeCost {
  /** Fourteen salaries a year: twelve months and two bonus salaries. */
  const SALARIES_PER_YEAR := 14.0

  datatype Employee = Employee(monthlyGrossSalary: real, employerContributionsRate: real, isActive: bool)

  /** The limits the model fields put on salary and contribution rate. */
  predicate ValidEmployee(e: Employee) {
    e.monthlyGrossSalary >= 0.0 && 0.0 <= e.employerContributionsRate <= 1.0
  }

  /** `total_annual_cost`: fourteen salaries, plus the employer's contributions on them. */
  function TotalAnnualCost(e: Employee): (r: real)
    ensures e.monthlyGrossSalary == 0.0 ==> r == 0.0
    ensures e.employerContributionsRate == 0.0 ==> r == SALARIES_PER_YEAR * e.monthlyGrossSalary
  {
    e.monthlyGrossSalary * 14.0 * (1.0 + e.employerContributionsRate)
  }

  /** Within the field limits the yearly cost lies between 14 and 28 monthly salaries. */
  lemma AnnualCostBounds(e: Employee)
    requires ValidEmployee(e)
    ensures SALARIES_PER_YEAR * e.monthlyGrossSalary <= TotalAnnualCost(e) <= 2.0 * SALARIES_PER_YEAR * e.monthlyGrossSalary
    ensures TotalAnnualCost(e) >= 0.0
  {
    CostWithin(e.monthlyGrossSalary, e.employerContributionsRate, TotalAnnualCost(e));
  }

  /** Fourteen salaries marked up by a rate from 0 to 1 lie between 14 and 28 salaries. */
  lemma CostWithin(m: real, c: real, t: real)
    requires m >= 0.0 && 0.0 <= c <= 1.0 && t == m * 14.0 * (1.0 + c)
    ensures 14.0 * m <= t <= 2.0 * 14.0 * m && t >= 0.0
  {
    var b := 14.0 * m;
    Expand(m, c);
    ScaleWithin(b, c);
    var bc := b * c;
    assert t == b + bc;
  }

  lemma Expand(m: real, c: real)
    ensures m * 14.0 * (1.0 + c) == 14.0 * m + (14.0 * m) * c
  {
  }

  lemma ScaleWithin(b: real, c: real)
    requires b >= 0.0 && 0.0 <= c <= 1.0
    ensures 0.0 <= b * c <= b
  {
  }
}
